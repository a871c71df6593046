/** The ColPali HTTP routes: request validation, temporary upload files and
    the translation of service answers into HTTP responses. Each route body
    runs inside a `try` whose `except Exception` also catches the route's
    own `HTTPException`, so a service error is wrapped a second time. */
module ColPaliRoutes {
  import opened Wrappers
  import opened Strings
  import opened Imaging
  import MemoryStore
  import Qdrant
  import Batching
  import Svc = ColPaliService

  /** An upload: its file name and, if reading its body raises, the error. */
  datatype Upload = Upload(filename: string, readError: Option<string>)

  /** `str(HTTPException(500, detail))`: the status code, a colon and the
      detail. */
  function ServerErrorText(detail: string): (t: string)
    ensures StartsWith(t, "500: ") && t[5..] == detail
  {
    "500: " + detail
  }

  predicate IsPdfName(name: string) {
    EndsWith(Lower(name), ".pdf")
  }

  /** The position of the first upload whose name does not end in ".pdf"
      (in any letter case). */
  function FirstNonPdf(files: seq<Upload>): (r: Option<nat>)
    ensures r.None? <==> forall i :: 0 <= i < |files| ==> IsPdfName(files[i].filename)
    ensures r.Some? ==>
      && r.value < |files| && !IsPdfName(files[r.value].filename)
      && forall i :: 0 <= i < r.value ==> IsPdfName(files[i].filename)
  {
    if |files| == 0 then None
    else if !IsPdfName(files[0].filename) then Some(0)
    else match FirstNonPdf(files[1..])
      case None => None
      case Some(j) => Some(j + 1)
  }

  // -----------------------------------------------------------------------
  // Temporary files
  // -----------------------------------------------------------------------

  /** The outcome of saving the uploads: how many temporary files were
      created, how many of their names were recorded for clean-up, and the
      read error that stopped the loop, if any. */
  datatype Saved = Saved(created: nat, recorded: nat, error: Option<string>)

  /** The saving loop: each file gets a temporary file, then its body is
      read; a read that raises leaves that file created but unrecorded. */
  function SaveUploads(files: seq<Upload>): (r: Saved)
    ensures r.recorded <= r.created <= |files|
    ensures r.error.None? <==> forall i :: 0 <= i < |files| ==> files[i].readError.None?
    ensures r.error.None? ==> r.created == r.recorded == |files|
    ensures r.error.Some? ==>
      && r.created == r.recorded + 1
      && files[r.recorded].readError == r.error
      && forall i :: 0 <= i < r.recorded ==> files[i].readError.None?
  {
    if |files| == 0 then Saved(0, 0, None)
    else match files[0].readError
      case Some(e) => Saved(1, 0, Some(e))
      case None =>
        var rest := SaveUploads(files[1..]);
        Saved(rest.created + 1, rest.recorded + 1, rest.error)
  }

  // -----------------------------------------------------------------------
  // Responses
  // -----------------------------------------------------------------------

  datatype Response<T> = Ok(body: T) | HttpError(status: nat, detail: string)

  datatype IndexBody = IndexBody(message: string, indexedPages: nat)

  /** What the index route did to the disk: temporary files created and
      unlinked. */
  datatype Cleanup = Cleanup(created: nat, unlinked: nat)

  /** `POST /index`. Uploads are validated first (not empty, all PDFs);
      then they are saved, the service indexes them and the recorded
      temporary files are unlinked on either path. `pages`, `batchSize`,
      `embed`, `fault` and `remote` are the service's inputs. */
  function IndexRoute(s: Svc.Service, files: seq<Upload>, pages: Result<seq<Image>, string>,
                      batchSize: int, embed: Image -> MemoryStore.Embedding,
                      fault: Option<(nat, string)>, remote: Result<string, string>)
    : (r: (Svc.Service, Response<IndexBody>, Cleanup))
    ensures |files| == 0 ==> r == (s, HttpError(400, "No files provided"), Cleanup(0, 0))
    ensures |files| > 0 && FirstNonPdf(files).Some? ==>
      var name := files[FirstNonPdf(files).value].filename;
      r == (s, HttpError(400, "File " + name + " is not a PDF. Only PDF files are supported."), Cleanup(0, 0))
    ensures r.1.Ok? ==>
      && |files| > 0
      && (forall i :: 0 <= i < |files| ==> IsPdfName(files[i].filename) && files[i].readError.None?)
      && r.0 == Svc.IndexDocuments(s, pages, batchSize, embed, fault, remote).0
      && pages.Success? && r.1.body.indexedPages == |pages.value|
    ensures r.1.HttpError? ==> r.1.status == 400 || r.1.status == 500
    ensures r.1.HttpError? && r.1.status == 500 ==> StartsWith(r.1.detail, "Error indexing documents: ")
    ensures r.2.unlinked <= r.2.created <= |files|
    ensures |files| > 0 && FirstNonPdf(files).None? ==>
      r.2 == Cleanup(SaveUploads(files).created, SaveUploads(files).recorded)
    ensures Svc.Consistent(s) ==> Svc.Consistent(r.0)
  {
    if |files| == 0 then (s, HttpError(400, "No files provided"), Cleanup(0, 0))
    else match FirstNonPdf(files)
      case Some(i) =>
        (s, HttpError(400, "File " + files[i].filename + " is not a PDF. Only PDF files are supported."), Cleanup(0, 0))
      case None =>
        var saved := SaveUploads(files);
        var cleanup := Cleanup(saved.created, saved.recorded);
        match saved.error
        case Some(e) => (s, HttpError(500, "Error indexing documents: " + e), cleanup)
        case None =>
          var (s', res) := Svc.IndexDocuments(s, pages, batchSize, embed, fault, remote);
          match res
          case Indexed(m, n) => (s', Ok(IndexBody(m, n)), cleanup)
          case IndexFailed(m) =>
            (s', HttpError(500, "Error indexing documents: " + ServerErrorText(m)), cleanup)
  }

  /** Every temporary file is removed except, when an upload cannot be
      read, the one created for it: its name was never recorded. */
  lemma IndexRouteLeaksOnlyUnreadUpload(s: Svc.Service, files: seq<Upload>, pages: Result<seq<Image>, string>,
                                        batchSize: int, embed: Image -> MemoryStore.Embedding,
                                        fault: Option<(nat, string)>, remote: Result<string, string>)
    requires |files| > 0 && FirstNonPdf(files).None?
    ensures var c := IndexRoute(s, files, pages, batchSize, embed, fault, remote).2;
      && (c.created - c.unlinked == 0 <==> forall i :: 0 <= i < |files| ==> files[i].readError.None?)
      && c.created - c.unlinked <= 1
  {
    var saved := SaveUploads(files);
    assert saved.error.None? <==> forall i :: 0 <= i < |files| ==> files[i].readError.None?;
  }

  /** A service that reports an error reaches the client wrapped twice:
      once by the route's own 500 and once by its `except` clause. */
  lemma IndexRouteWrapsServiceErrorTwice(s: Svc.Service, files: seq<Upload>, e: string,
                                         batchSize: int, embed: Image -> MemoryStore.Embedding,
                                         fault: Option<(nat, string)>, remote: Result<string, string>)
    requires |files| > 0
    requires forall i :: 0 <= i < |files| ==> IsPdfName(files[i].filename) && files[i].readError.None?
    ensures IndexRoute(s, files, Failure(e), batchSize, embed, fault, remote).1
      == HttpError(500, "Error indexing documents: " + ServerErrorText("Error indexing documents: " + e))
  {
  }

  // -----------------------------------------------------------------------
  // search / info / clear / health
  // -----------------------------------------------------------------------

  /** `POST /search`: a blank query is refused before the service runs; a
      service error becomes a wrapped 500. */
  method SearchRoute(s: Svc.Service, query: string, k: Option<int>, apiKey: Option<string>,
                     score: MemoryStore.Embedding -> real,
                     remote: Result<seq<Qdrant.Hit>, string>, aiAnswer: string)
    returns (r: Response<Svc.SearchResponse>)
    ensures IsBlank(query) <==> r == HttpError(400, "Query cannot be empty")
    ensures r.Ok? ==> r.body.Searched? && r.body.query == query
    ensures r.Ok? ==>
      && r.body.totalResults == |r.body.results|
      && (forall i :: 0 <= i < |r.body.results| ==> r.body.results[i].rank == i + 1)
      && (r.body.aiResponse.Some? <==> Svc.HasApiKey(apiKey))
      && (r.body.aiResponse.Some? ==> r.body.aiResponse.value == aiAnswer)
    ensures !IsBlank(query) && s.mode == Svc.Memory && Svc.Consistent(s) && |s.ds| > 0
            && k.GetOr(Svc.DefaultTopK) >= 0 ==>
      r.Ok? && |r.body.results| == Batching.Min(k.GetOr(Svc.DefaultTopK), |s.ds|)
    ensures !IsBlank(query) && s.mode == Svc.QdrantStore ==>
      && (remote.Success? && |remote.value| == 0 ==> r.Ok? && r.body.results == [])
      && (remote.Success? && |remote.value| > 0 ==>
            r == HttpError(500, "Error searching documents: " + ServerErrorText("Error searching documents: " + Svc.UnpackError)))
      && (remote.Failure? ==>
            r == HttpError(500, "Error searching documents: " + ServerErrorText("Error searching documents: " + remote.error)))
    ensures r.HttpError? && !IsBlank(query) ==>
      exists m :: r == HttpError(500, "Error searching documents: " + ServerErrorText(m))
    ensures s.mode == Svc.Memory && !IsBlank(query) && (|s.ds| == 0 || |s.images| == 0) ==>
      r == HttpError(500, "Error searching documents: " + ServerErrorText(Svc.NoDocuments))
  {
    if IsBlank(query) {
      return HttpError(400, "Query cannot be empty");
    }
    var res := Svc.SearchDocuments(s, query, k, apiKey, score, remote, aiAnswer);
    match res
    case Searched(_, _, _, _) => r := Ok(res);
    case SearchFailed(m) => r := HttpError(500, "Error searching documents: " + ServerErrorText(m));
  }

  /** `GET /info`. */
  function InfoRoute(s: Svc.Service, remote: Result<string, string>): (r: Response<Svc.InfoResponse>)
    ensures r.Ok? <==> !Svc.CollectionInfo(s, remote).InfoFailed?
    ensures s.mode == Svc.Memory ==> r == Ok(Svc.MemoryInfo(|s.ds|, |s.images|))
    ensures r.HttpError? ==>
      r == HttpError(500, "Error getting collection info: " + ServerErrorText("Error getting collection info: " + remote.error))
  {
    match Svc.CollectionInfo(s, remote)
    case InfoFailed(m) => HttpError(500, "Error getting collection info: " + ServerErrorText(m))
    case info => Ok(info)
  }

  /** `DELETE /clear`. */
  function ClearRoute(s: Svc.Service, remote: Result<string, string>): (r: (Svc.Service, Response<string>))
    ensures r.0 == Svc.ClearCollection(s, remote).0
    ensures r.1.Ok? <==> Svc.ClearCollection(s, remote).1.Cleared?
    ensures r.1.HttpError? ==>
      r.1 == HttpError(500, "Error clearing collection: " + ServerErrorText("Error clearing collection: " + remote.error))
  {
    var (s', res) := Svc.ClearCollection(s, remote);
    match res
    case Cleared(m) => (s', Ok(m))
    case ClearFailed(m) => (s', HttpError(500, "Error clearing collection: " + ServerErrorText(m)))
  }

  datatype Health = Health(status: string, service: string)

  /** `GET /health` answers 200 whatever the state. */
  function HealthRoute(): (r: Response<Health>)
    ensures r.Ok? && r.body.status == "healthy"
  {
    Ok(Health("healthy", "ColPali API"))
  }
}
