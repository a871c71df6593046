/** The `ColPaliManager` component: file selection, indexing, search,
    collection info and clearing over the component's own state. Unlike
    the hook it keeps no separate error; the message is coloured by its
    text. Awaited calls and the confirmation dialog are parameters. */
module ColPaliManager {
  import opened Wrappers
  import opened Strings
  import opened ClientTypes

  datatype ManagerState = ManagerState(files: seq<File>, indexing: bool, searching: bool, query: string,
                                       searchResults: seq<SearchResult>, collectionInfo: Option<CollectionInfo>,
                                       aiResponse: string, loading: bool, message: string)

  /** The number of results every search asks for. */
  const SearchK: nat := 5

  /** The message is drawn in the error colour. */
  predicate ShownAsError(s: ManagerState) {
    IsErrorMessage(s.message)
  }

  /** `handleFileSelect`: only the PDF files are kept; the filter message
      replaces the old one exactly when some file was dropped. */
  function SelectFiles(s: ManagerState, picked: seq<File>): (r: ManagerState)
    ensures r.files == PdfFiles(picked)
    ensures (exists i :: 0 <= i < |picked| && !IsPdf(picked[i])) ==> r.message == FilteredOut
    ensures (forall i :: 0 <= i < |picked| ==> IsPdf(picked[i])) ==> r.message == s.message
    ensures r.(files := s.files, message := s.message) == s
  {
    var (kept, note) := ClientTypes.SelectFiles(picked);
    s.(files := kept, message := note.GetOr(s.message))
  }

  /** `refreshCollectionInfo` completed: the info is stored, or the thrown
      message is shown; `loading` ends false. */
  function Refresh(s: ManagerState, reply: Call<CollectionInfo>): (r: ManagerState)
    ensures !r.loading
    ensures reply.Returned? ==> r == s.(collectionInfo := Some(reply.value), loading := false)
    ensures reply.Threw? ==> r == s.(message := ThrownMessage(InfoErrorLead, reply.error), loading := false)
  {
    match reply
    case Returned(info) => s.(collectionInfo := Some(info), loading := false)
    case Threw(e) => s.(message := ThrownMessage(InfoErrorLead, e), loading := false)
  }

  // -----------------------------------------------------------------------
  // Index
  // -----------------------------------------------------------------------

  /** `handleIndexDocuments` up to its call: nothing selected sets a prompt
      and makes no call. */
  function BeginIndex(s: ManagerState): (r: (ManagerState, bool))
    ensures r.1 <==> |s.files| > 0
    ensures !r.1 ==> r.0 == s.(message := SelectFirst)
    ensures r.1 ==> r.0 == s.(indexing := true, message := "")
  {
    if |s.files| == 0 then (s.(message := SelectFirst), false)
    else (s.(indexing := true, message := ""), true)
  }

  /** The index reply applied: the outcome's message, and on success the
      selection is emptied. */
  function ApplyIndex(s: ManagerState, sent: nat, reply: Call<IndexResponse>): (r: (ManagerState, bool))
    ensures r.1 == IndexOutcome(reply, sent).succeeded
    ensures r.0.message == IndexOutcome(reply, sent).message
    ensures r.1 ==> r.0.files == []
    ensures !r.1 ==> r.0.files == s.files
    ensures r.0.(files := s.files, message := s.message) == s
  {
    var o := IndexOutcome(reply, sent);
    (s.(message := o.message, files := if o.succeeded then [] else s.files), o.succeeded)
  }

  /** The completion: a successful index is followed by a refresh (with
      its own reply `info`), then `indexing` is reset. */
  function FinishIndex(s: ManagerState, sent: nat, reply: Call<IndexResponse>, info: Call<CollectionInfo>): (r: ManagerState)
    ensures !r.indexing
    ensures IndexOutcome(reply, sent).succeeded ==> r.files == [] && !r.loading
    ensures !IndexOutcome(reply, sent).succeeded ==>
      r == s.(message := IndexOutcome(reply, sent).message, indexing := false)
  {
    var (t, ok) := ApplyIndex(s, sent, reply);
    (if ok then Refresh(t, info) else t).(indexing := false)
  }

  /** A successful index whose refresh then fails shows the refresh's
      error, not the count of indexed pages. */
  lemma IndexMessageLostWhenRefreshFails(s: ManagerState, sent: nat, reply: Call<IndexResponse>, e: Option<string>)
    requires IndexOutcome(reply, sent).succeeded
    ensures FinishIndex(s, sent, reply, Threw(e)).message == ThrownMessage(InfoErrorLead, e)
    ensures ShownAsError(FinishIndex(s, sent, reply, Threw(e)))
  {
    ThrownMessagesShownAsErrors(e);
  }

  // -----------------------------------------------------------------------
  // Search
  // -----------------------------------------------------------------------

  /** `handleSearch` up to its call: a blank query sets a prompt and makes
      no call; otherwise message, results and AI answer are cleared and
      the query is sent with k = 5. */
  function BeginSearch(s: ManagerState): (r: (ManagerState, Option<(string, nat)>))
    ensures r.1.None? <==> IsBlank(s.query)
    ensures r.1.None? ==> r.0 == s.(message := EnterQuery)
    ensures r.1.Some? ==>
      && r.1.value == (s.query, SearchK)
      && r.0 == s.(searching := true, message := "", searchResults := [], aiResponse := "")
  {
    if IsBlank(s.query) then (s.(message := EnterQuery), None)
    else (s.(searching := true, message := "", searchResults := [], aiResponse := ""), Some((s.query, SearchK)))
  }

  /** The completion: on success results (default none) and AI answer
      (default empty) are stored; `searching` is reset. */
  function FinishSearch(s: ManagerState, reply: Call<SearchResponse>): (r: ManagerState)
    ensures !r.searching && r.message == SearchOutcome(reply).message
    ensures SearchOutcome(reply).succeeded ==>
      r.searchResults == reply.value.results.GetOr([]) && r.aiResponse == OrText(reply.value.aiResponse, "")
    ensures !SearchOutcome(reply).succeeded ==> r.searchResults == s.searchResults && r.aiResponse == s.aiResponse
    ensures r.files == s.files && r.collectionInfo == s.collectionInfo && r.loading == s.loading
  {
    var o := SearchOutcome(reply);
    var t := if o.succeeded
             then s.(searchResults := reply.value.results.GetOr([]), aiResponse := OrText(reply.value.aiResponse, ""))
             else s;
    t.(message := o.message, searching := false)
  }

  // -----------------------------------------------------------------------
  // Clear
  // -----------------------------------------------------------------------

  /** `handleClearCollection` up to its call: a declined confirmation
      changes nothing. */
  function BeginClear(s: ManagerState, confirmed: bool): (r: ManagerState)
    ensures !confirmed ==> r == s
    ensures confirmed ==> r == s.(loading := true, message := "")
  {
    if confirmed then s.(loading := true, message := "") else s
  }

  /** The clear reply applied: on success the info, results and AI answer
      are dropped. */
  function ApplyClear(s: ManagerState, reply: Call<ClearResponse>): (r: (ManagerState, bool))
    ensures r.1 == ClearOutcome(reply).succeeded
    ensures r.0.message == ClearOutcome(reply).message
    ensures r.1 ==> r.0 == s.(message := ClearedText, collectionInfo := None, searchResults := [], aiResponse := "")
    ensures !r.1 ==> r.0 == s.(message := ClearOutcome(reply).message)
  {
    var o := ClearOutcome(reply);
    (if o.succeeded then s.(message := o.message, collectionInfo := None, searchResults := [], aiResponse := "")
     else s.(message := o.message),
     o.succeeded)
  }

  /** The completion: a successful clear is followed by a refresh; the
      busy flag ends false. */
  function FinishClear(s: ManagerState, reply: Call<ClearResponse>, info: Call<CollectionInfo>): (r: ManagerState)
    ensures !r.loading
    ensures ClearOutcome(reply).succeeded ==>
      && r.searchResults == [] && r.aiResponse == ""
      && (info.Returned? ==> r.collectionInfo == Some(info.value) && r.message == ClearedText)
      && (info.Threw? ==> r.collectionInfo.None?)
    ensures !ClearOutcome(reply).succeeded ==> r == s.(message := ClearOutcome(reply).message, loading := false)
  {
    var (t, ok) := ApplyClear(s, reply);
    (if ok then Refresh(t, info) else t).(loading := false)
  }

  /** The colour of the index message once the call and the refresh
      after it settle: a thrown call reads as an error, a success as a
      success. */
  lemma IndexMessageColour(s: ManagerState, sent: nat, reply: Call<IndexResponse>, info: CollectionInfo)
    ensures IndexOutcome(reply, sent).succeeded ==> !ShownAsError(FinishIndex(s, sent, reply, Returned(info)))
    ensures reply.Threw? ==> ShownAsError(FinishIndex(s, sent, reply, Returned(info)))
  {
    if reply.Returned? {
      IndexedTextShownAsSuccess(reply.value.indexedPages, sent);
    } else {
      ThrownMessagesShownAsErrors(reply.error);
    }
  }

  /** The colour of the search message once the call settles. */
  lemma SearchMessageColour(s: ManagerState, reply: Call<SearchResponse>)
    ensures SearchOutcome(reply).succeeded ==> !ShownAsError(FinishSearch(s, reply))
    ensures reply.Threw? ==> ShownAsError(FinishSearch(s, reply))
  {
    if reply.Returned? {
      SearchDoneShownAsSuccess(reply.value.totalResults);
    } else {
      ThrownMessagesShownAsErrors(reply.error);
    }
  }

  /** The colour of the clear message once the call and the refresh after
      it settle. */
  lemma ClearMessageColour(s: ManagerState, reply: Call<ClearResponse>, info: CollectionInfo)
    ensures ClearOutcome(reply).succeeded ==> !ShownAsError(FinishClear(s, reply, Returned(info)))
    ensures reply.Threw? ==> ShownAsError(FinishClear(s, reply, Returned(info)))
  {
    if reply.Returned? {
      ClearedShownAsSuccess();
    } else {
      ThrownMessagesShownAsErrors(reply.error);
    }
  }
}
