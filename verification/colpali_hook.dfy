/** The `useColPali` hook: one state record with busy flags, data and a
    message/error pair, and the actions that update it. Each action is
    split into its synchronous start and its completion once the awaited
    call settles; the calls themselves are parameters. */
module ColPaliHook {
  import opened Wrappers
  import opened Strings
  import opened ClientTypes

  datatype HookState = HookState(indexing: bool, searching: bool, loading: bool,
                                 searchResults: seq<SearchResult>, collectionInfo: Option<CollectionInfo>,
                                 aiResponse: string, message: string, error: Option<string>)

  const Initial: HookState := HookState(false, false, false, [], None, "", "", None)

  /** The error, when set, is the message on display. */
  predicate ErrorShown(s: HookState) {
    s.error.Some? ==> s.error.value == s.message
  }

  /** What an action's synchronous part did: it returned a value at once,
      or it is waiting for a call. */
  datatype Step = Done(result: bool) | Pending

  /** `setMessage(m, isError)`: the message, and the error exactly when
      flagged; nothing else changes. */
  function SetMessage(s: HookState, m: string, isError: bool): (r: HookState)
    ensures r.message == m
    ensures r.error.Some? <==> isError
    ensures ErrorShown(r)
    ensures r.(message := s.message, error := s.error) == s
  {
    s.(message := m, error := if isError then Some(m) else None)
  }

  /** `clearMessage`: no message, no error; nothing else changes. */
  function ClearMessage(s: HookState): (r: HookState)
    ensures r.message == "" && r.error.None?
    ensures r.(message := s.message, error := s.error) == s
  {
    s.(message := "", error := None)
  }

  /** A later message replaces an earlier one entirely, and clearing
      forgets whatever message was set. */
  lemma MessagesOverride(s: HookState, a: string, x: bool, b: string, y: bool)
    ensures SetMessage(SetMessage(s, a, x), b, y) == SetMessage(s, b, y)
    ensures ClearMessage(SetMessage(s, a, x)) == ClearMessage(s)
    ensures ClearMessage(ClearMessage(s)) == ClearMessage(s)
  {
  }

  // -----------------------------------------------------------------------
  // Index
  // -----------------------------------------------------------------------

  /** `indexDocuments(files)` up to its call: no files gives an error and
      `false` without touching `indexing`. */
  function BeginIndex(s: HookState, files: seq<File>): (r: (HookState, Step))
    ensures |files| == 0 <==> r.1 == Done(false)
    ensures |files| == 0 ==> r.0 == SetMessage(s, SelectFirst, true)
    ensures r.1.Pending? ==> r.0 == ClearMessage(s).(indexing := true)
    ensures ErrorShown(r.0)
  {
    if |files| == 0 then (SetMessage(s, SelectFirst, true), Done(false))
    else (ClearMessage(s.(indexing := true)), Pending)
  }

  /** The completion: the outcome's message (an error unless it succeeded)
      and `indexing` reset in `finally`. */
  function FinishIndex(s: HookState, files: nat, reply: Call<IndexResponse>): (r: (HookState, bool))
    ensures r.1 == IndexOutcome(reply, files).succeeded
    ensures r.0 == SetMessage(s, IndexOutcome(reply, files).message, !r.1).(indexing := false)
    ensures ErrorShown(r.0)
  {
    var o := IndexOutcome(reply, files);
    (SetMessage(s, o.message, !o.succeeded).(indexing := false), o.succeeded)
  }

  // -----------------------------------------------------------------------
  // Search
  // -----------------------------------------------------------------------

  /** `searchDocuments(query)` up to its call: a blank query gives an
      error and `false`; otherwise the old results and AI answer are
      dropped before the call. */
  function BeginSearch(s: HookState, query: string): (r: (HookState, Step))
    ensures IsBlank(query) <==> r.1 == Done(false)
    ensures IsBlank(query) ==> r.0 == SetMessage(s, EnterQuery, true)
    ensures r.1.Pending? ==>
      && r.0.searching && r.0.searchResults == [] && r.0.aiResponse == ""
      && r.0.message == "" && r.0.error.None?
      && r.0.(searching := s.searching, searchResults := s.searchResults, aiResponse := s.aiResponse,
              message := s.message, error := s.error) == s
    ensures ErrorShown(r.0)
  {
    if IsBlank(query) then (SetMessage(s, EnterQuery, true), Done(false))
    else (ClearMessage(s.(searching := true, searchResults := [], aiResponse := "")), Pending)
  }

  /** The completion: on success the results (default none) and AI answer
      (default empty) are stored. */
  function FinishSearch(s: HookState, reply: Call<SearchResponse>): (r: (HookState, bool))
    ensures r.1 == SearchOutcome(reply).succeeded
    ensures !r.0.searching && r.0.message == SearchOutcome(reply).message
    ensures r.0.error.Some? <==> !r.1
    ensures r.1 ==>
      && r.0.searchResults == reply.value.results.GetOr([])
      && r.0.aiResponse == OrText(reply.value.aiResponse, "")
    ensures !r.1 ==> r.0.searchResults == s.searchResults && r.0.aiResponse == s.aiResponse
    ensures r.0.indexing == s.indexing && r.0.loading == s.loading && r.0.collectionInfo == s.collectionInfo
    ensures ErrorShown(r.0)
  {
    var o := SearchOutcome(reply);
    var t := if o.succeeded
             then s.(searchResults := reply.value.results.GetOr([]), aiResponse := OrText(reply.value.aiResponse, ""))
             else s;
    (SetMessage(t, o.message, !o.succeeded).(searching := false), o.succeeded)
  }

  // -----------------------------------------------------------------------
  // Collection info, clear, health
  // -----------------------------------------------------------------------

  function BeginInfo(s: HookState): (r: HookState)
    ensures r.loading && r.(loading := s.loading) == s
    ensures ErrorShown(s) ==> ErrorShown(r)
  {
    s.(loading := true)
  }

  /** `getCollectionInfo` completed: the info is stored and returned, or
      the thrown message is shown and nothing is returned. */
  function FinishInfo(s: HookState, reply: Call<CollectionInfo>): (r: (HookState, Option<CollectionInfo>))
    ensures !r.0.loading
    ensures reply.Returned? ==> r.1 == Some(reply.value) && r.0 == s.(collectionInfo := r.1, loading := false)
    ensures reply.Threw? ==>
      r.1.None? && r.0 == SetMessage(s, ThrownMessage(InfoErrorLead, reply.error), true).(loading := false)
    ensures ErrorShown(s) ==> ErrorShown(r.0)
  {
    match reply
    case Returned(info) => (s.(collectionInfo := Some(info), loading := false), Some(info))
    case Threw(e) => (SetMessage(s, ThrownMessage(InfoErrorLead, e), true).(loading := false), None)
  }

  function BeginClear(s: HookState): (r: HookState)
    ensures r == ClearMessage(s).(loading := true)
    ensures ErrorShown(r)
  {
    ClearMessage(s.(loading := true))
  }

  /** `clearCollection` completed: on success the info, results and AI
      answer are dropped. */
  function FinishClear(s: HookState, reply: Call<ClearResponse>): (r: (HookState, bool))
    ensures r.1 == ClearOutcome(reply).succeeded
    ensures !r.0.loading && r.0.message == ClearOutcome(reply).message
    ensures r.0.error.Some? <==> !r.1
    ensures r.1 ==> r.0.collectionInfo.None? && r.0.searchResults == [] && r.0.aiResponse == ""
    ensures !r.1 ==>
      r.0.collectionInfo == s.collectionInfo && r.0.searchResults == s.searchResults && r.0.aiResponse == s.aiResponse
    ensures ErrorShown(r.0)
  {
    var o := ClearOutcome(reply);
    var t := if o.succeeded then s.(collectionInfo := None, searchResults := [], aiResponse := "") else s;
    (SetMessage(t, o.message, !o.succeeded).(loading := false), o.succeeded)
  }

  /** `healthCheck`: true when the probe returns; otherwise the thrown
      message is shown. No busy flag is involved. */
  function HealthCheck(s: HookState, reply: Call<()>): (r: (HookState, bool))
    ensures r.1 <==> reply.Returned?
    ensures r.1 ==> r.0 == s
    ensures !r.1 ==> r.0 == SetMessage(s, "Health check failed: " + ThrownText(reply.error, UnknownError), true)
    ensures ErrorShown(s) ==> ErrorShown(r.0)
  {
    match reply
    case Returned(_) => (s, true)
    case Threw(e) => (SetMessage(s, "Health check failed: " + ThrownText(e, UnknownError), true), false)
  }

  // -----------------------------------------------------------------------
  // Properties across actions
  // -----------------------------------------------------------------------

  /** A call that goes out and settles leaves its busy flag cleared, and a
      thrown call always leaves an error that reads as one. */
  lemma SettledCallsAreIdle(s: HookState, files: seq<File>, query: string,
                            ir: Call<IndexResponse>, sr: Call<SearchResponse>, cr: Call<ClearResponse>)
    requires |files| > 0 && !IsBlank(query)
    ensures !FinishIndex(BeginIndex(s, files).0, |files|, ir).0.indexing
    ensures !FinishSearch(BeginSearch(s, query).0, sr).0.searching
    ensures !FinishClear(BeginClear(s), cr).0.loading
    ensures ir.Threw? ==> IsErrorMessage(FinishIndex(BeginIndex(s, files).0, |files|, ir).0.error.value)
    ensures sr.Threw? ==> IsErrorMessage(FinishSearch(BeginSearch(s, query).0, sr).0.error.value)
    ensures cr.Threw? ==> IsErrorMessage(FinishClear(BeginClear(s), cr).0.error.value)
  {
    if ir.Threw? {
      ThrownMessagesShownAsErrors(ir.error);
    }
    if sr.Threw? {
      ThrownMessagesShownAsErrors(sr.error);
    }
    if cr.Threw? {
      ThrownMessagesShownAsErrors(cr.error);
    }
  }

  /** A successful clear followed by a search start shows no results and
      no AI answer. */
  lemma ClearThenSearchShowsNothing(s: HookState, cr: Call<ClearResponse>, query: string)
    requires ClearOutcome(cr).succeeded && !IsBlank(query)
    ensures var t := BeginSearch(FinishClear(BeginClear(s), cr).0, query).0;
      t.searchResults == [] && t.aiResponse == "" && t.collectionInfo.None? && t.searching
  {
  }
}
