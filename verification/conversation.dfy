/** The conversational chat route: search, retrieve the result images,
    describe them in a context line and ask the vision model; plus the
    route's health check. Search outcomes, image fetches, the JPEG encoder
    and the chat completion call are parameters. */
module Conversation {
  import opened Wrappers
  import opened Strings
  import opened Imaging
  import Minio
  import OpenAi
  import MemoryStore
  import Qdrant
  import Svc = ColPaliService
  import Routes = ColPaliRoutes

  /** One search result as a dictionary: each key may be missing, hold
      `None` or hold a string. */
  datatype ResultEntry = ResultEntry(pageInfo: Qdrant.Field<string>, imageUrl: Qdrant.Field<string>,
                                     thumbnailUrl: Qdrant.Field<string>)

  /** What the search step produced: the service's error message or its
      result list. */
  datatype SearchOutcome = SearchError(message: string) | SearchResults(results: seq<ResultEntry>)

  datatype ChatResponse = ChatResponse(status: string, prompt: string, response: Option<string>,
                                       retrievedImages: seq<string>, totalRetrieved: nat, message: string)

  /** One retrieved image with the URL it was fetched through. */
  datatype Retrieved = Retrieved(image: Image, url: string)

  const NoResultsAnswer: string :=
    "I couldn't find any relevant images in your document collection to answer your question. Please make sure you have uploaded and indexed some documents first."
  const NoResultsMessage: string := "No relevant images found"
  const NotRetrievable: string := "Found relevant results but couldn't retrieve the actual images for analysis"
  const Completed: string := "Analysis completed successfully"

  /** The memory branch calls a lookup the service does not define. */
  const MissingLookup: string := "'ColPaliService' object has no attribute 'get_image_by_id'"

  /** A dictionary string value that Python treats as true. */
  predicate Truthy(f: Qdrant.Field<string>) {
    f.Value? && f.v != ""
  }

  // -----------------------------------------------------------------------
  // Image retrieval
  // -----------------------------------------------------------------------

  /** The memory branch's id: the last '/'-segment of `image_url`. */
  function MemoryImageId(url: string): string {
    LastSegment(url, '/')
  }

  /** The Qdrant branch's id: the text before the first '.' of the last
      '/'-segment of `thumbnail_url`. */
  function ThumbnailImageId(url: string): string {
    FirstSegment(LastSegment(url, '/'), '.')
  }

  /** A result the Qdrant branch can use: a non-empty thumbnail URL with at
      least one '/', whose id the object store returns. */
  predicate FromThumbnail(e: ResultEntry, fetch: string -> Result<Image, string>) {
    && Truthy(e.thumbnailUrl)
    && |Split(e.thumbnailUrl.v, "/")| >= 2
    && fetch(ThumbnailImageId(e.thumbnailUrl.v)).Success?
  }

  /** The Qdrant retrieval loop: each usable result contributes its image
      and its thumbnail URL, in result order; a failed fetch only skips
      that result. */
  function RetrieveThumbnails(results: seq<ResultEntry>, fetch: string -> Result<Image, string>)
    : (got: seq<Retrieved>)
    ensures |got| <= |results|
    ensures forall j :: 0 <= j < |got| ==>
      exists i :: 0 <= i < |results| && FromThumbnail(results[i], fetch) && got[j].url == results[i].thumbnailUrl.v
    ensures |got| == 0 <==> forall i :: 0 <= i < |results| ==> !FromThumbnail(results[i], fetch)
  {
    if |results| == 0 then []
    else
      var front := results[..|results| - 1];
      assert forall i :: 0 <= i < |front| ==> front[i] == results[i];
      var got := RetrieveThumbnails(front, fetch);
      var e := results[|results| - 1];
      if FromThumbnail(e, fetch) then
        got + [Retrieved(fetch(ThumbnailImageId(e.thumbnailUrl.v)).value, e.thumbnailUrl.v)]
      else got
  }

  /** The fetched image is the one named by the result's thumbnail. */
  lemma {:induction false} RetrievedImagesMatchIds(results: seq<ResultEntry>, fetch: string -> Result<Image, string>)
    ensures forall r :: r in RetrieveThumbnails(results, fetch) ==>
      fetch(ThumbnailImageId(r.url)) == Success(r.image)
  {
    if |results| > 0 {
      var front := results[..|results| - 1];
      RetrievedImagesMatchIds(front, fetch);
    }
  }

  /** Memory mode: the first result with a non-empty `image_url` hits the
      missing lookup; without one nothing is retrieved. */
  function RetrieveInMemory(results: seq<ResultEntry>): (r: Result<seq<Retrieved>, string>)
    ensures r.Failure? <==> exists i :: 0 <= i < |results| && Truthy(results[i].imageUrl)
    ensures r.Failure? ==> r.error == MissingLookup
    ensures r.Success? ==> r.value == []
  {
    if exists i :: 0 <= i < |results| && Truthy(results[i].imageUrl) then Failure(MissingLookup)
    else Success([])
  }

  // -----------------------------------------------------------------------
  // Context line
  // -----------------------------------------------------------------------

  /** The label of result `i`: its `page_info`, "Image {i+1}" when the key
      is missing, and "None" when it holds `None`. */
  function PageLabel(e: ResultEntry, i: nat): string {
    match e.pageInfo
    case Missing => "Image " + NatToString(i + 1)
    case Null => "None"
    case Value(v) => v
  }

  function ContextEntries(results: seq<ResultEntry>, n: nat): (entries: seq<string>)
    requires n <= |results|
    ensures |entries| == n
    ensures forall i :: 0 <= i < n ==> entries[i] == "Image " + NatToString(i + 1) + ": " + PageLabel(results[i], i)
  {
    seq(n, i requires 0 <= i < n => "Image " + NatToString(i + 1) + ": " + PageLabel(results[i], i))
  }

  const ContextPrefix: string := "Retrieved images: "

  /** The context handed to the model: one entry per retrieved image,
      labelled from the first `n` results, joined by "; ". */
  function Context(results: seq<ResultEntry>, n: nat): (c: string)
    requires n <= |results|
    ensures StartsWith(c, ContextPrefix)
    ensures c[|ContextPrefix|..] == Join(ContextEntries(results, n), "; ")
  {
    ContextPrefix + Join(ContextEntries(results, n), "; ")
  }

  /** When no page label contains ';' the entries can be read back out of
      the context in order. */
  lemma ContextEntriesRecoverable(results: seq<ResultEntry>, n: nat)
    requires 1 <= n <= |results|
    requires forall i :: 0 <= i < n ==> ';' !in PageLabel(results[i], i)
    ensures Split(Context(results, n)[|ContextPrefix|..], "; ") == ContextEntries(results, n)
  {
    var es := ContextEntries(results, n);
    forall i | 0 <= i < n
      ensures ';' !in es[i]
    {
      NatToStringHasNo(i + 1, ';');
      assert es[i] == "Image " + NatToString(i + 1) + ": " + PageLabel(results[i], i);
    }
    SplitJoin(es, "; ");
  }

  // -----------------------------------------------------------------------
  // The chat route
  // -----------------------------------------------------------------------

  /** The message of the catch-all handler. */
  function ProcessingError(e: string): string {
    "Error processing request: " + e
  }

  function Failed(prompt: string, message: string): ChatResponse {
    ChatResponse("error", prompt, None, [], 0, message)
  }

  function Urls(got: seq<Retrieved>): (urls: seq<string>)
    ensures |urls| == |got| && forall j :: 0 <= j < |got| ==> urls[j] == got[j].url
  {
    seq(|got|, j requires 0 <= j < |got| => got[j].url)
  }

  function Images(got: seq<Retrieved>): (imgs: seq<Image>)
    ensures |imgs| == |got| && forall j :: 0 <= j < |got| ==> imgs[j] == got[j].image
  {
    seq(|got|, j requires 0 <= j < |got| => got[j].image)
  }

  /** The images the current storage mode retrieves for `results`. */
  function Retrieve(mode: Svc.Mode, results: seq<ResultEntry>, fetch: string -> Result<Image, string>)
    : (r: Result<seq<Retrieved>, string>)
    ensures r.Success? ==> |r.value| <= |results|
  {
    if mode == Svc.Memory then RetrieveInMemory(results) else Success(RetrieveThumbnails(results, fetch))
  }

  /** The model's analysis of the retrieved images, with the context built
      from the first results. */
  function Analyze(prompt: string, results: seq<ResultEntry>, got: seq<Retrieved>,
                   jpeg: Image -> Result<string, string>, call: seq<OpenAi.Message> -> OpenAi.Reply)
    : OpenAi.Analysis
    requires |got| <= |results|
  {
    OpenAi.ConversationalAnalysis(prompt, Images(got), Some(Context(results, |got|)), jpeg, call)
  }

  /** The response once the search produced a non-empty result list. */
  function Respond(prompt: string, results: seq<ResultEntry>, got: Result<seq<Retrieved>, string>,
                   jpeg: Image -> Result<string, string>, call: seq<OpenAi.Message> -> OpenAi.Reply)
    : (r: ChatResponse)
    requires got.Success? ==> |got.value| <= |results|
    ensures r.prompt == prompt && r.totalRetrieved == |r.retrievedImages|
    ensures r.status == "success" || r.status == "error"
    ensures r.status == "error" <==> r.response.None?
    ensures r.status == "success" <==>
      got.Success? && got.value != [] && Analyze(prompt, results, got.value, jpeg, call).outcome.Success?
    ensures r.totalRetrieved > 0 ==>
      r.status == "success" && r.message == Completed && r.retrievedImages == Urls(got.value)
    ensures got.Success? && got.value == [] ==> r == Failed(prompt, NotRetrievable)
    ensures got.Failure? ==> r == Failed(prompt, ProcessingError(got.error))
    ensures got.Success? && got.value != [] ==>
      var outcome := Analyze(prompt, results, got.value, jpeg, call).outcome;
      && (outcome.Success? ==>
            r == ChatResponse("success", prompt, Some(outcome.value), Urls(got.value), |got.value|, Completed))
      && (outcome.Failure? ==> r == Failed(prompt, ProcessingError(outcome.error)))
  {
    match got
    case Failure(e) => Failed(prompt, ProcessingError(e))
    case Success(got) =>
      if |got| == 0 then Failed(prompt, NotRetrievable)
      else
        match Analyze(prompt, results, got, jpeg, call).outcome
        case Failure(e) => Failed(prompt, ProcessingError(e))
        case Success(answer) => ChatResponse("success", prompt, Some(answer), Urls(got), |got|, Completed)
  }

  /** `POST /chat`. A blank prompt is refused with 400; a search error is
      re-raised as a 500 with one prefix; no results is a successful empty
      answer; results without retrievable images, or any exception later
      on, are answered with status "error". */
  function Chat(mode: Svc.Mode, prompt: string, search: SearchOutcome,
                fetch: string -> Result<Image, string>,
                jpeg: Image -> Result<string, string>, call: seq<OpenAi.Message> -> OpenAi.Reply)
    : (r: Routes.Response<ChatResponse>)
    ensures IsBlank(prompt) <==> r == Routes.HttpError(400, "Prompt cannot be empty")
    ensures !IsBlank(prompt) && search.SearchError? ==>
      r == Routes.HttpError(500, "Error searching documents: " + search.message)
    ensures r.Ok? ==>
      && search.SearchResults?
      && r.body.prompt == prompt
      && r.body.totalRetrieved == |r.body.retrievedImages|
      && (r.body.status == "success" || r.body.status == "error")
      && (r.body.status == "error" <==> r.body.response.None?)
    ensures r.Ok? && |search.results| == 0 ==>
      r.body == ChatResponse("success", prompt, Some(NoResultsAnswer), [], 0, NoResultsMessage)
    ensures r.Ok? && r.body.totalRetrieved > 0 ==>
      && mode == Svc.QdrantStore
      && r.body.message == Completed
      && r.body.retrievedImages == Urls(RetrieveThumbnails(search.results, fetch))
    ensures r.Ok? && mode == Svc.Memory && |search.results| > 0 ==>
      r.body == Failed(prompt, if RetrieveInMemory(search.results).Failure?
                               then ProcessingError(MissingLookup) else NotRetrievable)
    ensures r.Ok? && mode == Svc.QdrantStore && |search.results| > 0 ==>
      var got := RetrieveThumbnails(search.results, fetch);
      (r.body.status == "success" <==> got != [] && Analyze(prompt, search.results, got, jpeg, call).outcome.Success?)
    ensures r.Ok? && mode == Svc.QdrantStore && |search.results| > 0 ==>
      var got := RetrieveThumbnails(search.results, fetch);
      && (got == [] ==> r.body == Failed(prompt, NotRetrievable))
      && (got != [] ==>
            var outcome := Analyze(prompt, search.results, got, jpeg, call).outcome;
            && (outcome.Success? ==> r.body.response == Some(outcome.value) && r.body.retrievedImages == Urls(got))
            && (outcome.Failure? ==> r.body == Failed(prompt, ProcessingError(outcome.error))))
  {
    if IsBlank(prompt) then Routes.HttpError(400, "Prompt cannot be empty")
    else match search
      case SearchError(m) => Routes.HttpError(500, "Error searching documents: " + m)
      case SearchResults(results) =>
        if |results| == 0 then
          Routes.Ok(ChatResponse("success", prompt, Some(NoResultsAnswer), [], 0, NoResultsMessage))
        else
          Routes.Ok(Respond(prompt, results, Retrieve(mode, results, fetch), jpeg, call))
  }

  /** End to end in Qdrant mode: once some result's thumbnail is fetched
      and some fetched image encodes, the body carries the model's first
      choice text, or "No response generated" when that text is missing or
      empty, together with the thumbnail URLs it was given. */
  lemma ChatAnswersWithModelText(prompt: string, results: seq<ResultEntry>,
                                 fetch: string -> Result<Image, string>,
                                 jpeg: Image -> Result<string, string>, call: seq<OpenAi.Message> -> OpenAi.Reply,
                                 content: Option<string>)
    requires !IsBlank(prompt) && |results| > 0
    requires RetrieveThumbnails(results, fetch) != []
    requires |OpenAi.EncodedPositions(Images(RetrieveThumbnails(results, fetch)), jpeg)| > 0
    requires forall msgs :: call(msgs) == OpenAi.Choices([OpenAi.Choice(Some(OpenAi.ChoiceMessage(content)))])
    ensures var got := RetrieveThumbnails(results, fetch);
      Chat(Svc.QdrantStore, prompt, SearchResults(results), fetch, jpeg, call)
        == Routes.Ok(ChatResponse("success", prompt,
                                  Some(if OpenAi.Truthy(content) then content.value else OpenAi.EmptyAnswer),
                                  Urls(got), |got|, Completed))
  {
    var got := RetrieveThumbnails(results, fetch);
    var c := Context(results, |got|);
    assert OpenAi.Truthy(Some(c)) by {
      assert StartsWith(c, ContextPrefix);
    }
    var a := Analyze(prompt, results, got, jpeg, call);
    assert a.sent.Some?;
  }

  /** The id of a stored thumbnail comes back out of its public URL,
      provided it holds no '/' and no '.'. */
  lemma ThumbnailIdRoundTrip(minioUrl: string, bucket: string, id: string)
    requires '/' !in id && '.' !in id
    ensures var url := Minio.ObjectUrl(minioUrl, bucket, Minio.ThumbObjectName(id));
      |Split(url, "/")| >= 2 && ThumbnailImageId(url) == id
  {
    var url := Minio.ObjectUrl(minioUrl, bucket, Minio.ThumbObjectName(id));
    var front := minioUrl + "/" + bucket + "/" + "thumbs";
    var tail := id + ".png";
    assert '/' !in tail;
    assert url == front + ['/'] + tail;
    SplitAround(front, tail, '/');
    LastSegmentAfter(front, tail, '/');
    assert tail == id + ['.'] + "png";
    FirstSegmentBefore(id, "png", '.');
  }

  /** A thumbnail stored for `id` is retrieved whenever the store returns
      that id. */
  lemma StoredThumbnailIsRetrieved(minioUrl: string, bucket: string, id: string, e: ResultEntry,
                                   fetch: string -> Result<Image, string>)
    requires '/' !in id && '.' !in id
    requires e.thumbnailUrl == Qdrant.Value(Minio.ObjectUrl(minioUrl, bucket, Minio.ThumbObjectName(id)))
    requires fetch(id).Success?
    ensures FromThumbnail(e, fetch)
  {
    ThumbnailIdRoundTrip(minioUrl, bucket, id);
  }

  // -----------------------------------------------------------------------
  // Composition with the service
  // -----------------------------------------------------------------------

  /** The service's formatted results as dictionaries: they carry a page
      label but neither an image URL nor a thumbnail URL. */
  function AsEntries(fs: seq<Svc.Formatted>): (es: seq<ResultEntry>)
    ensures |es| == |fs|
    ensures forall i :: 0 <= i < |es| ==> es[i] == ResultEntry(Qdrant.Value(fs[i].pageInfo), Qdrant.Missing, Qdrant.Missing)
  {
    seq(|fs|, i requires 0 <= i < |fs| => ResultEntry(Qdrant.Value(fs[i].pageInfo), Qdrant.Missing, Qdrant.Missing))
  }

  /** The search step of the route, run against the service. */
  method SearchStep(s: Svc.Service, prompt: string, topK: Option<int>,
                    score: MemoryStore.Embedding -> real, remote: Result<seq<Qdrant.Hit>, string>)
    returns (out: SearchOutcome)
    ensures out.SearchResults? ==> forall i :: 0 <= i < |out.results| ==>
      out.results[i].imageUrl == Qdrant.Missing && out.results[i].thumbnailUrl == Qdrant.Missing
  {
    var res := Svc.SearchDocuments(s, prompt, topK, None, score, remote, "");
    match res
    case SearchFailed(m) => out := SearchError(m);
    case Searched(_, results, _, _) => out := SearchResults(AsEntries(results));
  }

  /** Fed by the service, the chat never retrieves an image: every
      response that is not an HTTP error reports zero images, and any
      non-empty result list ends with status "error". */
  method ChatOverService(s: Svc.Service, prompt: string, topK: Option<int>,
                         score: MemoryStore.Embedding -> real, remote: Result<seq<Qdrant.Hit>, string>,
                         fetch: string -> Result<Image, string>,
                         jpeg: Image -> Result<string, string>, call: seq<OpenAi.Message> -> OpenAi.Reply)
    returns (r: Routes.Response<ChatResponse>)
    ensures r.Ok? ==> r.body.retrievedImages == [] && r.body.totalRetrieved == 0
    ensures r.Ok? && r.body.status == "success" ==> r.body.message == NoResultsMessage
  {
    var search := SearchStep(s, prompt, topK, score, remote);
    if search.SearchResults? {
      var results := search.results;
      assert forall i :: 0 <= i < |results| ==> !FromThumbnail(results[i], fetch) && !Truthy(results[i].imageUrl);
    }
    r := Chat(s.mode, prompt, search, fetch, jpeg, call);
  }

  // -----------------------------------------------------------------------
  // Health
  // -----------------------------------------------------------------------

  datatype HealthBody = HealthBody(status: string, openai: string, colpali: string, message: string)

  function HealthWord(ok: bool): string {
    if ok then "healthy" else "unhealthy"
  }

  /** `GET /health` of the chat route: 200 when the model endpoint answers
      and the service reports its collection, 503 otherwise. */
  function ChatHealth(probe: OpenAi.Reply, info: Svc.InfoResponse): (r: (nat, HealthBody))
    ensures r.0 == 200 || r.0 == 503
    ensures r.0 == 200 <==> OpenAi.HealthCheck(probe) && !info.InfoFailed?
    ensures r.1.status == "healthy" <==> r.0 == 200
    ensures r.1.openai == "healthy" <==> OpenAi.HealthCheck(probe)
    ensures r.1.colpali == "healthy" <==> !info.InfoFailed?
  {
    var openaiOk := OpenAi.HealthCheck(probe);
    var colpaliOk := !info.InfoFailed?;
    var overall := openaiOk && colpaliOk;
    (if overall then 200 else 503,
     HealthBody(HealthWord(overall), HealthWord(openaiOk), HealthWord(colpaliOk),
                if overall then "All services operational" else "Some services are unavailable"))
  }
}
