/** The storage-agnostic service behind the ColPali routes. In memory mode
    it owns the embedding list `ds` and the page images; in Qdrant mode the
    store is remote and its answers are parameters. Every public operation
    turns an exception into an error response instead of raising. */
module ColPaliService {
  import opened Wrappers
  import opened Strings
  import opened Imaging
  import opened Batching
  import MemoryStore
  import Qdrant

  datatype Mode = Memory | QdrantStore

  /** The service state; `ds` and `images` are used in memory mode only. */
  datatype Service = Service(mode: Mode, ds: seq<MemoryStore.Embedding>, images: seq<Image>)

  /** Pages are appended to `images` before they are embedded, so there are
      never more embeddings than images. */
  predicate Consistent(s: Service) {
    |s.ds| <= |s.images|
  }

  /** `settings.DEFAULT_TOP_K` at its default. */
  const DefaultTopK: int := 5

  // -----------------------------------------------------------------------
  // index_documents
  // -----------------------------------------------------------------------

  datatype IndexResponse =
    | Indexed(message: string, indexedPages: nat)
    | IndexFailed(message: string)

  /** `index_documents`. `pages` is the PDF-to-image conversion; in memory
      mode the pages are appended to `images` first and then embedded
      (`embed`, `batchSize` and `fault` as for `index_gpu`); in Qdrant mode
      `remote` is what the Qdrant indexer returns. */
  function IndexDocuments(s: Service, pages: Result<seq<Image>, string>, batchSize: int,
                          embed: Image -> MemoryStore.Embedding, fault: Option<(nat, string)>,
                          remote: Result<string, string>): (r: (Service, IndexResponse))
    ensures r.0.mode == s.mode
    ensures Consistent(s) ==> Consistent(r.0)
    ensures pages.Failure? ==> r == (s, IndexFailed("Error indexing documents: " + pages.error))
    ensures r.1.IndexFailed? ==> StartsWith(r.1.message, "Error indexing documents: ")
    ensures r.1.Indexed? ==> pages.Success? && r.1.indexedPages == |pages.value|
    ensures s.mode == Memory && pages.Success? ==>
      && r.0.images == s.images + pages.value
      && (r.1.Indexed? ==> r.0.ds == s.ds + MemoryStore.EmbedAll(pages.value, embed))
    ensures s.mode == QdrantStore ==> r.0 == s
    ensures s.mode == QdrantStore && pages.Success? ==> (r.1.Indexed? <==> remote.Success?)
  {
    match pages
    case Failure(e) => (s, IndexFailed("Error indexing documents: " + e))
    case Success(imgs) =>
      if s.mode == Memory then
        var withImages := s.(images := s.images + imgs);
        var (ds', res) := MemoryStore.IndexGpu(imgs, s.ds, batchSize, embed, fault);
        var s' := withImages.(ds := ds');
        match res
        case Success(m) => (s', Indexed(m, |imgs|))
        case Failure(e) => (s', IndexFailed("Error indexing documents: " + e))
      else
        match remote
        case Success(m) => (s, Indexed(m, |imgs|))
        case Failure(e) => (s, IndexFailed("Error indexing documents: " + e))
  }

  /** In memory mode a batch that fails to embed leaves more images than
      embeddings behind. */
  lemma FailedEmbedLeavesImagesAhead(s: Service, pages: seq<Image>, batchSize: int,
                                     embed: Image -> MemoryStore.Embedding, f: nat, msg: string,
                                     remote: Result<string, string>)
    requires s.mode == Memory && Consistent(s)
    requires batchSize >= 1 && f < BatchCount(|pages|, batchSize)
    ensures var r := IndexDocuments(s, Success(pages), batchSize, embed, Some((f, msg)), remote);
      r.1.IndexFailed? && |r.0.ds| < |r.0.images|
  {
  }

  // -----------------------------------------------------------------------
  // search_documents
  // -----------------------------------------------------------------------

  /** One formatted result: rank, page label and image size; there is no
      image or thumbnail URL. */
  datatype Formatted = Formatted(rank: nat, pageInfo: string, imageSize: Option<(nat, nat)>)

  datatype SearchResponse =
    | Searched(query: string, results: seq<Formatted>, totalResults: nat, aiResponse: Option<string>)
    | SearchFailed(message: string)

  const NoDocuments: string := "No documents indexed. Please upload and index documents first."

  /** Unpacking a hit of three values into two names raises this. */
  const UnpackError: string := "too many values to unpack (expected 2)"

  /** `api_key and api_key.strip()`. */
  predicate HasApiKey(apiKey: Option<string>) {
    apiKey.Some? && !IsBlank(apiKey.value)
  }

  /** The formatting loop over `(image, page_info)` pairs: ranks count from
      1 in result order. */
  function FormatResults(hits: seq<MemoryStore.MemoryHit>): (fs: seq<Formatted>)
    ensures |fs| == |hits|
    ensures forall i :: 0 <= i < |fs| ==> fs[i].rank == i + 1 && fs[i].pageInfo == hits[i].pageInfo
    ensures forall i :: 0 <= i < |fs| ==> fs[i].imageSize == Some((hits[i].image.width, hits[i].image.height))
  {
    seq(|hits|, i requires 0 <= i < |hits| =>
      Formatted(i + 1, hits[i].pageInfo, Some((hits[i].image.width, hits[i].image.height))))
  }

  /** `search_documents`. In memory mode an empty store answers with an
      error; otherwise the in-memory search runs with `k` (default 5). In
      Qdrant mode `remote` is the Qdrant search outcome, whose hits are
      triples; the formatting loop unpacks pairs, so any hit ends in the
      error response. `aiAnswer` is what the OpenAI helper returns. */
  method SearchDocuments(s: Service, query: string, k: Option<int>, apiKey: Option<string>,
                         score: MemoryStore.Embedding -> real,
                         remote: Result<seq<Qdrant.Hit>, string>, aiAnswer: string)
    returns (r: SearchResponse)
    ensures s.mode == Memory && (|s.ds| == 0 || |s.images| == 0) ==> r == SearchFailed(NoDocuments)
    ensures r.Searched? ==>
      && r.query == query
      && r.totalResults == |r.results|
      && (forall i :: 0 <= i < |r.results| ==> r.results[i].rank == i + 1)
      && (r.aiResponse.Some? <==> HasApiKey(apiKey))
      && (r.aiResponse.Some? ==> r.aiResponse.value == aiAnswer)
    ensures s.mode == Memory && Consistent(s) && |s.ds| > 0 && k.GetOr(DefaultTopK) >= 0 ==>
      r.Searched? && |r.results| == Min(k.GetOr(DefaultTopK), |s.ds|)
    ensures s.mode == QdrantStore ==>
      && (remote.Success? && |remote.value| > 0 ==> r == SearchFailed("Error searching documents: " + UnpackError))
      && (remote.Success? && |remote.value| == 0 ==> r.Searched? && r.results == [])
      && (remote.Failure? ==> r == SearchFailed("Error searching documents: " + remote.error))
    ensures r.SearchFailed? ==> r.message == NoDocuments || StartsWith(r.message, "Error searching documents: ")
  {
    var topK := k.GetOr(DefaultTopK);
    var hits: seq<MemoryStore.MemoryHit>;
    if s.mode == Memory {
      if |s.ds| == 0 || |s.images| == 0 {
        return SearchFailed(NoDocuments);
      }
      var indices, outcome := MemoryStore.Search(s.ds, s.images, topK, score);
      if outcome.Failure? {
        return SearchFailed("Error searching documents: " + outcome.error);
      }
      hits := outcome.value;
    } else {
      if remote.Failure? {
        return SearchFailed("Error searching documents: " + remote.error);
      }
      if |remote.value| > 0 {
        return SearchFailed("Error searching documents: " + UnpackError);
      }
      hits := [];
    }
    var ai := if HasApiKey(apiKey) then Some(aiAnswer) else None;
    r := Searched(query, FormatResults(hits), |hits|, ai);
  }

  // -----------------------------------------------------------------------
  // get_collection_info / clear_collection
  // -----------------------------------------------------------------------

  datatype InfoResponse =
    | MemoryInfo(indexedDocuments: nat, indexedImages: nat)
    | QdrantInfo(collectionInfo: string)
    | InfoFailed(message: string)

  /** `get_collection_info`: the two list lengths in memory mode, the remote
      description in Qdrant mode. */
  function CollectionInfo(s: Service, remote: Result<string, string>): (r: InfoResponse)
    ensures s.mode == Memory ==> r == MemoryInfo(|s.ds|, |s.images|)
    ensures s.mode == QdrantStore ==> (r.QdrantInfo? <==> remote.Success?)
    ensures r.InfoFailed? ==> r.message == "Error getting collection info: " + remote.error
  {
    if s.mode == Memory then MemoryInfo(|s.ds|, |s.images|)
    else match remote
      case Success(info) => QdrantInfo(info)
      case Failure(e) => InfoFailed("Error getting collection info: " + e)
  }

  datatype ClearResponse = Cleared(message: string) | ClearFailed(message: string)

  /** `clear_collection`: memory mode empties both lists; Qdrant mode
      reports the outcome of the remote clear, whose own error text already
      starts with "Error clearing collection: " and is prefixed again. */
  function ClearCollection(s: Service, remote: Result<string, string>): (r: (Service, ClearResponse))
    ensures r.0.mode == s.mode
    ensures s.mode == Memory || Consistent(s) ==> Consistent(r.0)
    ensures s.mode == Memory ==> r.0.ds == []&& r.0.images == [] && r.1 == Cleared("Memory store cleared successfully")
    ensures s.mode == QdrantStore ==> r.0 == s && (r.1.Cleared? <==> remote.Success?)
    ensures r.1.ClearFailed? ==> r.1.message == "Error clearing collection: " + remote.error
  {
    if s.mode == Memory then (s.(ds := [], images := []), Cleared("Memory store cleared successfully"))
    else match remote
      case Success(m) => (s, Cleared(m))
      case Failure(e) => (s, ClearFailed("Error clearing collection: " + e))
  }

  /** After a memory-mode clear the store reports no documents and no
      images, and a search answers that nothing is indexed. */
  method ClearThenQuery(s: Service, query: string, k: Option<int>, apiKey: Option<string>,
                        score: MemoryStore.Embedding -> real, aiAnswer: string)
    returns (info: InfoResponse, search: SearchResponse)
    requires s.mode == Memory
    ensures info == MemoryInfo(0, 0)
    ensures search == SearchFailed(NoDocuments)
  {
    var (cleared, _) := ClearCollection(s, Success(""));
    info := CollectionInfo(cleared, Success(""));
    search := SearchDocuments(cleared, query, k, apiKey, score, Success([]), aiAnswer);
  }

  /** A failed remote clear carries the prefix twice. */
  lemma QdrantClearErrorDoublePrefix(s: Service, deleteError: string)
    requires s.mode == QdrantStore
    ensures var remote := Qdrant.ClearCollection("", Some(deleteError), None);
      ClearCollection(s, remote).1
        == ClearFailed("Error clearing collection: " + ("Error clearing collection: " + deleteError))
  {
    var remote := Qdrant.ClearCollection("", Some(deleteError), None);
    assert remote.error == "Error clearing collection: " + deleteError;
  }
}
