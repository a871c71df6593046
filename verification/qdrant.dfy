/** The Qdrant-backed document store: the batch planner and payload
    construction of `index_documents` with its progress callbacks, the
    result shaping of `search`, and the error tolerance of collection
    creation and clearing. Embedding, the vector upload and the reranking
    query are external; their failures and answers are parameters. */
module Qdrant {
  import opened Wrappers
  import opened Strings
  import opened Imaging
  import opened Batching
  import Minio

  // -----------------------------------------------------------------------
  // Payloads
  // -----------------------------------------------------------------------

  /** The Qdrant point payload of one page. */
  datatype Payload = Payload(index: nat, page: string, imageUrl: string,
                             thumbnailUrl: Option<string>, documentId: string)

  /** The payload of the page at zero-based position `i`: `thumbnail_url` is
      read with a default, but the stored result always has that key, so a
      `None` thumbnail URL is kept as `None`. */
  function PayloadAt(stored: seq<Minio.StoreResult>, docIds: seq<string>, i: nat): Payload
    requires i < |stored| && i < |docIds|
  {
    Payload(i, "Page " + NatToString(i), stored[i].url, stored[i].thumbnailUrl, docIds[i])
  }

  /** One payload per page, in page order. */
  function Payloads(stored: seq<Minio.StoreResult>, docIds: seq<string>): (ps: seq<Payload>)
    requires |stored| == |docIds|
    ensures |ps| == |stored|
  {
    seq(|stored|, i requires 0 <= i < |stored| => PayloadAt(stored, docIds, i))
  }

  /** The payload indices are exactly 0..n-1 in order, page labels are
      distinct, and each payload carries its page's stored URLs. */
  lemma PayloadsIndexPages(stored: seq<Minio.StoreResult>, docIds: seq<string>)
    requires |stored| == |docIds|
    ensures forall i :: 0 <= i < |stored| ==> Payloads(stored, docIds)[i].index == i
    ensures forall i, j :: 0 <= i < j < |stored| ==>
      Payloads(stored, docIds)[i].page != Payloads(stored, docIds)[j].page
    ensures forall i :: 0 <= i < |stored| ==>
      && Payloads(stored, docIds)[i].imageUrl == stored[i].url
      && Payloads(stored, docIds)[i].thumbnailUrl == stored[i].thumbnailUrl
  {
    var ps := Payloads(stored, docIds);
    forall i, j | 0 <= i < j < |stored|
      ensures ps[i].page != ps[j].page
    {
      NatToStringInjective(i, j);
      assert ps[i].page[5..] == NatToString(i);
      assert ps[j].page[5..] == NatToString(j);
    }
  }

  // -----------------------------------------------------------------------
  // Progress callbacks
  // -----------------------------------------------------------------------

  /** One `progress_callback(stage, progress, step, total_files, processed)`
      call. */
  datatype Callback = Callback(stage: string, progress: real, step: string,
                               totalFiles: int, processed: nat)

  /** The share of a batch reached at each of its four callbacks. */
  function Fraction(s: nat): real
    requires s < 4
  {
    if s == 0 then 0.0 else if s == 1 then 0.4 else if s == 2 then 0.7 else 0.9
  }

  function StageName(s: nat): string {
    if s == 1 then "storing" else "indexing"
  }

  function StepText(k: nat, t: nat, s: nat): string {
    var tag := NatToString(k + 1) + "/" + NatToString(t);
    if s == 0 then "Batch " + tag + ": Generating embeddings"
    else if s == 1 then "Batch " + tag + ": Storing images in MinIO"
    else if s == 2 then "Batch " + tag + ": Indexing in Qdrant"
    else "Completed batch " + tag
  }

  /** `batch_start_progress + progress_per_batch * fraction`, over the
      reals. */
  function ProgressAt(t: nat, k: nat, s: nat): real
    requires t >= 1 && s < 4
  {
    var perBatch := 100.0 / (t as real);
    (k as real) * perBatch + perBatch * Fraction(s)
  }

  /** The `s`-th callback of batch `k` when `n` pages are indexed in batches
      of `b`: the first three report the pre-batch count, the last one the
      count including the batch. */
  function CallbackAt(n: nat, b: nat, totalFiles: int, k: nat, s: nat): Callback
    requires b >= 1 && s < 4 && k < BatchCount(n, b)
  {
    var t := BatchCount(n, b);
    Callback(StageName(s), ProgressAt(t, k, s), StepText(k, t, s), totalFiles,
             if s < 3 then k * b else Min(k * b + b, n))
  }

  /** Every callback of a complete run, four per batch. */
  function Callbacks(n: nat, b: nat, totalFiles: int): (cs: seq<Callback>)
    requires b >= 1
    ensures |cs| == 4 * BatchCount(n, b)
  {
    seq(4 * BatchCount(n, b), i requires 0 <= i < 4 * BatchCount(n, b) =>
      DivModFour(i); CallbackAt(n, b, totalFiles, i / 4, i % 4))
  }

  lemma DivModFour(i: nat)
    ensures i % 4 < 4 && i == 4 * (i / 4) + i % 4
  {
  }

  lemma DivModFourOf(k: nat, s: nat)
    requires s < 4
    ensures (4 * k + s) / 4 == k && (4 * k + s) % 4 == s
  {
  }

  lemma ProgressOrder(t: nat, k1: nat, s1: nat, k2: nat, s2: nat)
    requires t >= 1 && s1 < 4 && s2 < 4
    requires k1 < k2 || (k1 == k2 && s1 < s2)
    ensures ProgressAt(t, k1, s1) < ProgressAt(t, k2, s2)
  {
    var p := 100.0 / (t as real);
    assert p > 0.0;
    var a := k1 as real + Fraction(s1);
    var c := k2 as real + Fraction(s2);
    assert a < c;
    assert ProgressAt(t, k1, s1) == a * p;
    assert ProgressAt(t, k2, s2) == c * p;
    assert (c - a) * p > 0.0;
  }

  lemma ProgressBelowHundred(t: nat, k: nat, s: nat)
    requires t >= 1 && s < 4 && k < t
    ensures 0.0 <= ProgressAt(t, k, s) < 100.0
  {
    var p := 100.0 / (t as real);
    assert (t as real) * p == 100.0;
    var a := k as real + Fraction(s);
    assert ProgressAt(t, k, s) == a * p;
    assert a < t as real;
    assert (t as real - a) * p > 0.0;
  }

  /** Over the reals the reported progress starts at 0, rises strictly with
      every callback and stays below 100; the processed count is the
      pre-batch total during a batch and ends at the page count. */
  lemma CallbacksProgress(n: nat, b: nat, totalFiles: int)
    requires b >= 1
    ensures var cs := Callbacks(n, b, totalFiles);
      && (|cs| > 0 ==> cs[0].progress == 0.0 && cs[|cs| - 1].processed == n)
      && (forall i, j :: 0 <= i < j < |cs| ==> cs[i].progress < cs[j].progress)
      && (forall i :: 0 <= i < |cs| ==> 0.0 <= cs[i].progress < 100.0)
      && (forall i :: 0 <= i < |cs| && i % 4 < 3 ==> cs[i].processed == (i / 4) * b)
      && (forall i :: 0 <= i < |cs| && i % 4 == 3 ==> cs[i].processed == Min((i / 4) * b + b, n))
  {
    var cs := Callbacks(n, b, totalFiles);
    var t := BatchCount(n, b);
    forall i, j | 0 <= i < j < |cs|
      ensures cs[i].progress < cs[j].progress
    {
      DivModFour(i);
      DivModFour(j);
      ProgressOrder(t, i / 4, i % 4, j / 4, j % 4);
    }
    forall i | 0 <= i < |cs|
      ensures 0.0 <= cs[i].progress < 100.0
    {
      DivModFour(i);
      ProgressBelowHundred(t, i / 4, i % 4);
    }
    if |cs| > 0 {
      DivModFourOf(t - 1, 3);
      assert (t - 1) * b + b == t * b;
    }
  }

  // -----------------------------------------------------------------------
  // index_documents
  // -----------------------------------------------------------------------

  /** Where an external step raises: embedding of batch `batch`, the MinIO
      upload of page `page`, or the vector upload of page `page`. */
  datatype Fault =
    | EmbedFault(batch: nat, message: string)
    | StoreFault(page: nat, message: string)
    | UpsertFault(page: nat, message: string)

  /** Whether a fault is reached by a run over `n` pages in batches of
      `b`. */
  predicate FaultHits(f: Fault, n: nat, b: nat)
    requires b >= 1
  {
    match f
    case EmbedFault(k, _) => k < BatchCount(n, b)
    case StoreFault(p, _) => p < n
    case UpsertFault(p, _) => p < n
  }

  /** The text of the exception a reached fault raises. */
  function FaultMessage(f: Fault, b: nat): string
    requires b >= 1
  {
    match f
    case EmbedFault(_, m) => "Error during embed: " + m
    case StoreFault(p, m) =>
      "Error storing images in MinIO for batch starting at " + NatToString(p / b * b) + ": " + m
    case UpsertFault(p, m) => "Error during upsert for image " + NatToString(p) + ": " + m
  }

  /** How many pages were uploaded before a reached fault raised: every page
      of the earlier batches, plus the earlier pages of the same batch for an
      upload fault. */
  function UpsertedBeforeFault(f: Fault, b: nat): nat
    requires b >= 1
  {
    match f
    case EmbedFault(k, _) => k * b
    case StoreFault(p, _) => p / b * b
    case UpsertFault(p, _) => p
  }

  const ZeroDivision: string := "integer division or modulo by zero"

  predicate FaultIn(fault: Option<Fault>, n: nat, b: nat)
    requires b >= 1
  {
    fault.Some? && FaultHits(fault.value, n, b)
  }

  lemma BatchOfPage(p: nat, b: nat, k: nat)
    requires b >= 1 && k * b <= p < k * b + b
    ensures p / b == k
  {
    var q := p / b;
    DivBounds(p, b, q);
    if q < k {
      MulLe(q + 1, k, b);
      MulSucc(q, b);
    } else if q > k {
      MulLe(k + 1, q, b);
      MulSucc(k, b);
    }
  }

  /** `xs` is an initial run of `all`. */
  predicate IsPrefix<T(==)>(xs: seq<T>, all: seq<T>) {
    |xs| <= |all| && xs == all[..|xs|]
  }

  /** No fault is reached before batch `k`, whose first page is `done`. */
  predicate FaultNotBefore(fault: Option<Fault>, k: nat, done: nat) {
    fault.Some? ==>
      (if fault.value.EmbedFault? then fault.value.batch >= k else fault.value.page >= done)
  }

  lemma PrefixExtend<T>(xs: seq<T>, all: seq<T>, x: T)
    requires IsPrefix(xs, all) && |xs| < |all| && all[|xs|] == x
    ensures IsPrefix(xs + [x], all)
  {
    assert xs + [x] == all[..|xs| + 1];
  }

  /** The planned callback at position `4k + s` is the `s`-th of batch `k`. */
  lemma PlannedCallback(n: nat, b: nat, tf: int, k: nat, s: nat)
    requires b >= 1 && k < BatchCount(n, b) && s < 4
    ensures 4 * k + s < |Callbacks(n, b, tf)|
    ensures Callbacks(n, b, tf)[4 * k + s] == CallbackAt(n, b, tf, k, s)
  {
    DivModFourOf(k, s);
  }

  /** The next planned callback appended to a run of the plan. */
  function AppendPlanned(callbacks: seq<Callback>, n: nat, b: nat, tf: int, k: nat, s: nat): (r: seq<Callback>)
    requires b >= 1 && k < BatchCount(n, b) && s < 4
    requires |callbacks| == 4 * k + s && IsPrefix(callbacks, Callbacks(n, b, tf))
    ensures |r| == 4 * k + s + 1 && IsPrefix(r, Callbacks(n, b, tf))
  {
    PlannedCallback(n, b, tf, k, s);
    PrefixExtend(callbacks, Callbacks(n, b, tf), CallbackAt(n, b, tf, k, s));
    callbacks + [CallbackAt(n, b, tf, k, s)]
  }

  /** The per-page upload loop of one batch: pages `start .. start+size`
      are uploaded in order until an upload fault is reached. */
  method UpsertBatch(b: nat, stored: seq<Minio.StoreResult>, docIds: seq<string>, fault: Option<Fault>,
                     start: nat, size: nat, upserted0: seq<Payload>)
    returns (upserted: seq<Payload>, error: Option<string>)
    requires b >= 1 && |stored| == |docIds| && start + size <= |stored|
    requires |upserted0| == start && IsPrefix(upserted0, Payloads(stored, docIds))
    requires fault.Some? && fault.value.UpsertFault? ==> fault.value.page >= start
    ensures IsPrefix(upserted, Payloads(stored, docIds))
    ensures error.None? ==>
      && |upserted| == start + size
      && (fault.Some? && fault.value.UpsertFault? ==> fault.value.page >= start + size)
    ensures error.Some? ==>
      && fault.Some? && fault.value.UpsertFault? && start <= fault.value.page < start + size
      && error.value == FaultMessage(fault.value, b) && |upserted| == fault.value.page
  {
    ghost var all := Payloads(stored, docIds);
    upserted := upserted0;
    error := None;
    var j := 0;
    while j < size
      invariant 0 <= j <= size
      invariant |upserted| == start + j
      invariant IsPrefix(upserted, all)
      invariant fault.Some? && fault.value.UpsertFault? ==> fault.value.page >= start + j
    {
      if fault.Some? && fault.value.UpsertFault? && fault.value.page == start + j {
        error := Some(FaultMessage(fault.value, b));
        return;
      }
      PrefixExtend(upserted, all, PayloadAt(stored, docIds, start + j));
      upserted := upserted + [PayloadAt(stored, docIds, start + j)];
      j := j + 1;
    }
  }

  /** One turn of the batch loop: four callbacks around embedding, the
      MinIO upload and the per-page vector upload, or an early raise. */
  method IndexBatch(n: nat, b: nat, tf: int, k: nat, start: nat, hasCallback: bool,
                    stored: seq<Minio.StoreResult>, docIds: seq<string>, fault: Option<Fault>,
                    callbacks0: seq<Callback>, upserted0: seq<Payload>)
    returns (callbacks: seq<Callback>, upserted: seq<Payload>, error: Option<string>)
    requires b >= 1 && k < BatchCount(n, b) && start == k * b
    requires |stored| == n && |docIds| == n
    requires hasCallback ==> |callbacks0| == 4 * k && IsPrefix(callbacks0, Callbacks(n, b, tf))
    requires !hasCallback ==> callbacks0 == []
    requires |upserted0| == start && IsPrefix(upserted0, Payloads(stored, docIds))
    requires FaultNotBefore(fault, k, start)
    ensures hasCallback ==> IsPrefix(callbacks, Callbacks(n, b, tf))
    ensures !hasCallback ==> callbacks == []
    ensures IsPrefix(upserted, Payloads(stored, docIds))
    ensures error.None? ==>
      && |upserted| == Min(start + b, n)
      && (hasCallback ==> |callbacks| == 4 * k + 4)
      && FaultNotBefore(fault, k + 1, Min(start + b, n))
    ensures error.Some? ==>
      && fault.Some? && FaultHits(fault.value, n, b)
      && error.value == FaultMessage(fault.value, b)
      && |upserted| == UpsertedBeforeFault(fault.value, b)
  {
    LaterBatchesStartLater(n, b, k);
    var size := Min(b, n - start);
    callbacks := callbacks0;
    upserted := upserted0;
    error := None;
    if hasCallback {
      callbacks := AppendPlanned(callbacks, n, b, tf, k, 0);
    }
    if fault.Some? && fault.value.EmbedFault? && fault.value.batch == k {
      error := Some(FaultMessage(fault.value, b));
      return;
    }
    if hasCallback {
      callbacks := AppendPlanned(callbacks, n, b, tf, k, 1);
    }
    if fault.Some? && fault.value.StoreFault? && fault.value.page < start + size {
      BatchOfPage(fault.value.page, b, k);
      error := Some(FaultMessage(fault.value, b));
      return;
    }
    if hasCallback {
      callbacks := AppendPlanned(callbacks, n, b, tf, k, 2);
    }
    upserted, error := UpsertBatch(b, stored, docIds, fault, start, size, upserted);
    if error.Some? {
      return;
    }
    if hasCallback {
      callbacks := AppendPlanned(callbacks, n, b, tf, k, 3);
    }
  }

  /** `index_documents` as the loop runs it. `stored[i]` is what MinIO
      returns for page `i`, `docIds[i]` the generated point id, and `fault`
      the first external step that raises, if any. Every uploaded payload is
      the page's payload, in page order; callbacks are the planned ones, in
      order; without a reached fault the run uploads every page, makes every
      callback and reports the page count. */
  method IndexDocuments(images: seq<Image>, batchSize: int, totalFiles: Option<int>,
                        hasCallback: bool, stored: seq<Minio.StoreResult>,
                        docIds: seq<string>, fault: Option<Fault>)
    returns (callbacks: seq<Callback>, upserted: seq<Payload>, outcome: Result<string, string>)
    requires |stored| == |images| && |docIds| == |images|
    ensures batchSize == 0 ==> outcome == Failure(ZeroDivision) && callbacks == [] && upserted == []
    ensures batchSize < 0 ==> outcome == Success(IndexedMessage(|images|)) && callbacks == [] && upserted == []
    ensures batchSize >= 1 ==>
      var tf := totalFiles.GetOr(0);
      && IsPrefix(upserted, Payloads(stored, docIds))
      && (hasCallback ==> IsPrefix(callbacks, Callbacks(|images|, batchSize, tf)))
      && (!hasCallback ==> callbacks == [])
      && (outcome.Failure? <==> FaultIn(fault, |images|, batchSize))
      && (outcome.Failure? ==>
            && outcome.error == FaultMessage(fault.value, batchSize)
            && |upserted| == UpsertedBeforeFault(fault.value, batchSize))
      && (outcome.Success? ==>
            && outcome.value == IndexedMessage(|images|)
            && upserted == Payloads(stored, docIds)
            && (hasCallback ==> callbacks == Callbacks(|images|, batchSize, tf)))
  {
    var n := |images|;
    callbacks := [];
    upserted := [];
    if batchSize == 0 {
      outcome := Failure(ZeroDivision);
      return;
    }
    if batchSize < 0 {
      outcome := Success(IndexedMessage(n));
      return;
    }
    var b: nat := batchSize;
    var tf := totalFiles.GetOr(0);
    var t := BatchCount(n, b);
    var k := 0;
    var start := 0;
    while k < t
      invariant 0 <= k <= t && start == k * b
      invariant |upserted| == Min(start, n)
      invariant IsPrefix(upserted, Payloads(stored, docIds))
      invariant hasCallback ==> |callbacks| == 4 * k && IsPrefix(callbacks, Callbacks(n, b, tf))
      invariant !hasCallback ==> callbacks == []
      invariant FaultNotBefore(fault, k, Min(start, n))
    {
      LaterBatchesStartLater(n, b, k);
      var error;
      callbacks, upserted, error := IndexBatch(n, b, tf, k, start, hasCallback, stored, docIds,
                                               fault, callbacks, upserted);
      if error.Some? {
        outcome := Failure(error.value);
        return;
      }
      MulSucc(k, b);
      k := k + 1;
      start := start + b;
    }
    outcome := Success(IndexedMessage(n));
    assert Min(start, n) == n;
    FaultNotReached(fault, n, b, t);
  }

  lemma FaultNotReached(fault: Option<Fault>, n: nat, b: nat, t: nat)
    requires b >= 1 && t == BatchCount(n, b) && FaultNotBefore(fault, t, n)
    ensures !FaultIn(fault, n, b)
  {
  }

  // -----------------------------------------------------------------------
  // search
  // -----------------------------------------------------------------------

  /** A payload value read with `dict.get`: the key may be absent, present
      with `None`, or present with a value. */
  datatype Field<T> = Missing | Null | Value(v: T)

  datatype PointPayload = PointPayload(
    imageUrl: Field<string>,
    thumbnailUrl: Field<string>,
    page: Field<string>,
    index: Field<int>)

  /** One search hit: the image, its page label and its thumbnail URL. */
  datatype Hit = Hit(image: Image, pageInfo: Option<string>, thumbnailUrl: Option<string>)

  /** Python `s[:k]`: a negative `k` counts from the end. */
  function TakePrefix<T>(s: seq<T>, k: int): (r: seq<T>)
    ensures |r| <= |s|
    ensures k >= 0 ==> |r| == Min(k, |s|)
    ensures r == s[..|r|]
  {
    if k >= 0 then s[..Min(k, |s|)]
    else if |s| + k >= 0 then s[..|s| + k]
    else []
  }

  /** `payload.get('image_url')`. */
  function ImageUrlOf(p: PointPayload): Option<string> {
    match p.imageUrl
    case Value(u) => Some(u)
    case _ => None
  }

  /** `payload.get('thumbnail_url', image_url)`: the image URL only when the
      key is absent. */
  function ThumbnailUrlOf(p: PointPayload): Option<string> {
    match p.thumbnailUrl
    case Missing => ImageUrlOf(p)
    case Null => None
    case Value(u) => Some(u)
  }

  /** `payload.get('page', f"Page {payload.get('index', i)}")`. */
  function PageInfoOf(p: PointPayload, i: nat): Option<string> {
    match p.page
    case Value(s) => Some(s)
    case Null => None
    case Missing =>
      Some("Page " + match p.index
                     case Missing => NatToString(i)
                     case Null => "None"
                     case Value(v) => IntToString(v))
  }

  /** `image_url.split('/')[-1].replace('.png', '')`. */
  function ExtractImageId(url: string): string {
    RemoveAll(LastSegment(url, '/'), ".png")
  }

  /** A point whose image can be fetched: its URL is a non-empty string and
      the store returns the image of the extracted id. */
  predicate Retrievable(p: PointPayload, fetch: string -> Result<Image, string>) {
    var u := ImageUrlOf(p);
    u.Some? && u.value != "" && fetch(ExtractImageId(u.value)).Success?
  }

  function RenderOption(u: Option<string>): string {
    if u.Some? then u.value else "None"
  }

  /** The text raised for a point without a usable image URL. */
  function MissingUrlText(i: nat, u: Option<string>): string {
    "Cannot retrieve image for point " + NatToString(i) + ". Image URL: "
      + RenderOption(u) + ", MinIO available: True"
  }

  /** The wrapping applied to any failure while fetching point `i`. */
  function PointError(i: nat, e: string): (r: string)
    ensures StartsWith(r, "Error retrieving image from MinIO for point ")
  {
    var lead := "Error retrieving image from MinIO for point ";
    var r := lead + (NatToString(i) + ": " + e);
    assert r[..|lead|] == lead;
    r
  }

  /** The loop body of `search` from point `i` on, over the truncated point
      list. */
  function SearchFrom(points: seq<PointPayload>, i: nat, fetch: string -> Result<Image, string>)
    : (r: Result<seq<Hit>, string>)
    requires i <= |points|
    ensures r.Success? <==> forall j :: i <= j < |points| ==> Retrievable(points[j], fetch)
    ensures r.Success? ==> |r.value| == |points| - i
    ensures r.Failure? ==> StartsWith(r.error, "Error retrieving image from MinIO for point ")
    decreases |points| - i
  {
    if i == |points| then Success([])
    else
      var p := points[i];
      var u := ImageUrlOf(p);
      if u.None? || u.value == "" then
        Failure(PointError(i, MissingUrlText(i, u)))
      else match fetch(ExtractImageId(u.value))
        case Failure(e) => Failure(PointError(i, e))
        case Success(img) =>
          match SearchFrom(points, i + 1, fetch)
          case Failure(e) => Failure(e)
          case Success(rest) => Success([Hit(img, PageInfoOf(p, i), ThumbnailUrlOf(p))] + rest)
  }

  /** `h` is the hit built for point `k`: its fetched image, its page
      information and its thumbnail. */
  predicate HitOf(points: seq<PointPayload>, k: nat, fetch: string -> Result<Image, string>, h: Hit)
    requires k < |points|
  {
    && ImageUrlOf(points[k]).Some?
    && Success(h.image) == fetch(ExtractImageId(ImageUrlOf(points[k]).value))
    && h.pageInfo == PageInfoOf(points[k], k)
    && h.thumbnailUrl == ThumbnailUrlOf(points[k])
  }

  /** `hits` are the hits for the points from `i` on, in order. */
  predicate HitsFrom(points: seq<PointPayload>, i: nat, fetch: string -> Result<Image, string>, hits: seq<Hit>) {
    i + |hits| <= |points| && forall j :: 0 <= j < |hits| ==> HitOf(points, i + j, fetch, hits[j])
  }

  /** A successful search from `i` is the hit for point `i` followed by
      the successful search from `i + 1`. */
  lemma SearchFromStep(points: seq<PointPayload>, i: nat, fetch: string -> Result<Image, string>)
    requires i < |points| && SearchFrom(points, i, fetch).Success?
    ensures var r := SearchFrom(points, i, fetch);
      var rest := SearchFrom(points, i + 1, fetch);
      && rest.Success? && |r.value| == |rest.value| + 1
      && HitOf(points, i, fetch, r.value[0])
      && r.value[1..] == rest.value
  {
  }

  /** Each hit is the one built for its point, in the order of the
      points. */
  lemma {:induction false} SearchFromHits(points: seq<PointPayload>, i: nat, fetch: string -> Result<Image, string>)
    requires i <= |points|
    ensures var r := SearchFrom(points, i, fetch);
      r.Success? ==> HitsFrom(points, i, fetch, r.value)
    decreases |points| - i
  {
    var r := SearchFrom(points, i, fetch);
    if i < |points| && r.Success? {
      var rest := SearchFrom(points, i + 1, fetch);
      SearchFromStep(points, i, fetch);
      SearchFromHits(points, i + 1, fetch);
      HitsShift(points, i, fetch, r.value, rest.value);
    }
  }

  /** Hits for the points from `i + 1` on, preceded by the hit for point
      `i`, are the hits for the points from `i` on. */
  lemma HitsShift(points: seq<PointPayload>, i: nat, fetch: string -> Result<Image, string>,
                  hits: seq<Hit>, rest: seq<Hit>)
    requires i < |points| && |hits| == |rest| + 1 && i + |hits| <= |points|
    requires HitOf(points, i, fetch, hits[0]) && hits[1..] == rest
    requires HitsFrom(points, i + 1, fetch, rest)
    ensures HitsFrom(points, i, fetch, hits)
  {
    forall j | 0 <= j < |hits| ensures HitOf(points, i + j, fetch, hits[j]) {
      if j > 0 {
        assert hits[j] == rest[j - 1];
        assert HitOf(points, i + 1 + (j - 1), fetch, rest[j - 1]);
      }
    }
  }

  /** `search` after the remote query: the first `k` points (Python slice
      semantics), each turned into a hit, in the order of the points; any
      point that cannot be fetched aborts the whole search. */
  function Search(points: seq<PointPayload>, k: int, fetch: string -> Result<Image, string>)
    : (r: Result<seq<Hit>, string>)
    ensures r.Success? ==> |r.value| == |TakePrefix(points, k)|
    ensures r.Success? ==> |r.value| <= |points| && (k >= 0 ==> |r.value| == Min(k, |points|))
    ensures r.Success? <==> forall j :: 0 <= j < |TakePrefix(points, k)| ==> Retrievable(points[j], fetch)
    ensures r.Success? ==> forall j :: 0 <= j < |r.value| ==> j < |points| && HitOf(points, j, fetch, r.value[j])
  {
    var taken := TakePrefix(points, k);
    SearchFromHits(taken, 0, fetch);
    assert forall j :: 0 <= j < |taken| ==> taken[j] == points[j];
    assert SearchFrom(taken, 0, fetch).Success? ==> HitsFrom(taken, 0, fetch, SearchFrom(taken, 0, fetch).value);
    SearchFrom(taken, 0, fetch)
  }

  /** The id stored at `images/{id}.png` comes back out of the public URL
      unchanged, provided it holds no '/' and no ".png". */
  lemma ImageIdRoundTrip(minioUrl: string, bucket: string, id: string)
    requires '/' !in id && !Contains(id, ".png")
    ensures ExtractImageId(Minio.ObjectUrl(minioUrl, bucket, Minio.ImageObjectName(id))) == id
  {
    var tail := id + ".png";
    assert '/' !in tail;
    var front := minioUrl + "/" + bucket + "/" + "images";
    assert Minio.ObjectUrl(minioUrl, bucket, Minio.ImageObjectName(id)) == front + ['/'] + tail;
    LastSegmentAfter(front, tail, '/');
    RemoveAllTrailing(id, ".png");
  }

  /** Searching a point whose URL was produced by the image store fetches
      exactly the stored id. */
  lemma SearchFetchesStoredId(minioUrl: string, bucket: string, id: string, p: PointPayload)
    requires '/' !in id && !Contains(id, ".png")
    requires p.imageUrl == Value(Minio.ObjectUrl(minioUrl, bucket, Minio.ImageObjectName(id)))
    ensures ImageUrlOf(p).Some? && ExtractImageId(ImageUrlOf(p).value) == id
  {
    ImageIdRoundTrip(minioUrl, bucket, id);
  }

  // -----------------------------------------------------------------------
  // Collection management
  // -----------------------------------------------------------------------

  /** `_create_collection_if_not_exists`: an error whose lower-cased text
      mentions "already exists" counts as success; any other error is
      re-raised with the collection name. */
  function CreateCollection(collection: string, error: Option<string>): (r: Result<(), string>)
    ensures r.Success? <==> error.None? || Contains(Lower(error.value), "already exists")
    ensures r.Failure? ==> r.error == "Error creating collection " + collection + ": " + error.value
  {
    if error.None? || Contains(Lower(error.value), "already exists") then Success(())
    else Failure("Error creating collection " + collection + ": " + error.value)
  }

  /** Any capitalisation of "already exists" in the error text is
      tolerated. */
  lemma CreateCollectionIgnoresCase(collection: string, e: string, p: string)
    requires Lower(p) == "already exists" && Contains(e, p)
    ensures CreateCollection(collection, Some(e)).Success?
  {
    LowerKeepsContains(e, p);
  }

  /** `clear_collection`: delete, then re-create; either failure is wrapped
      once more. */
  function ClearCollection(collection: string, deleteError: Option<string>,
                           createError: Option<string>): (r: Result<string, string>)
    ensures deleteError.Some? ==> r == Failure("Error clearing collection: " + deleteError.value)
    ensures deleteError.None? ==> (r.Success? <==> CreateCollection(collection, createError).Success?)
    ensures r.Success? ==> r.value == "Collection cleared successfully"
    ensures r.Failure? ==> StartsWith(r.error, "Error clearing collection: ")
  {
    if deleteError.Some? then Failure("Error clearing collection: " + deleteError.value)
    else match CreateCollection(collection, createError)
      case Failure(e) => Failure("Error clearing collection: " + e)
      case Success(_) => Success("Collection cleared successfully")
  }
}
