/** Values the browser code shares: the JSON shapes it receives, awaited
    calls that may throw, JavaScript truthiness and number formatting, the
    PDF-only file filter and the message texts and colouring common to the
    hook and the two dashboard components. */
module ClientTypes {
  import opened Wrappers
  import opened Strings

  /** A browser `File`: its name and MIME type. */
  datatype File = File(name: string, mimeType: string)

  /** A JSON field as JavaScript reads it: absent, `null`, or a value. */
  datatype JsField<T> = Undefined | Null | Defined(value: T)

  datatype SearchResult = SearchResult(rank: int, pageInfo: string, imageSize: Option<(int, int)>,
                                       imageUrl: Option<string>, thumbnailUrl: Option<string>)

  datatype SearchResponse = SearchResponse(status: string, query: Option<string>,
                                           results: Option<seq<SearchResult>>, totalResults: Option<int>,
                                           aiResponse: Option<string>, message: Option<string>)

  datatype IndexResponse = IndexResponse(status: string, message: Option<string>, indexedPages: Option<int>)

  datatype CollectionInfo = CollectionInfo(status: string, storageType: Option<string>,
                                           indexedDocuments: JsField<int>, indexedImages: JsField<int>,
                                           message: Option<string>)

  datatype ClearResponse = ClearResponse(status: string, message: Option<string>)

  /** An awaited call: it returned a value, or it threw; a thrown `Error`
      carries its message, any other thrown value carries none. */
  datatype Call<T> = Returned(value: T) | Threw(error: Option<string>)

  /** `err instanceof Error ? err.message : fallback`. */
  function ThrownText(error: Option<string>, fallback: string): (t: string)
    ensures error.Some? ==> t == error.value
    ensures error.None? ==> t == fallback
  {
    match error
    case Some(m) => m
    case None => fallback
  }

  /** `s || fallback` on an optional string: a missing or empty string
      gives way to the fallback. */
  function OrText(s: Option<string>, fallback: string): (t: string)
    ensures s.Some? && s.value != "" ==> t == s.value
    ensures s.None? || s.value == "" ==> t == fallback
    ensures fallback != "" ==> t != ""
  {
    if s.Some? && s.value != "" then s.value else fallback
  }

  /** `${n}` for an integer that may be `undefined`. */
  function NumberText(n: Option<int>): string {
    if n.None? then "undefined" else IntToString(n.value)
  }

  /** JavaScript truthiness of a number that may be missing. */
  predicate TruthyNumber(n: Option<int>) {
    n.Some? && n.value != 0
  }

  // -----------------------------------------------------------------------
  // File selection
  // -----------------------------------------------------------------------

  const PdfType: string := "application/pdf"

  predicate IsPdf(f: File) {
    f.mimeType == PdfType
  }

  /** JavaScript `xs.filter(keep)`: the elements that pass, in order. */
  function Filter<T>(xs: seq<T>, keep: T -> bool): (ys: seq<T>)
    ensures |ys| <= |xs|
    ensures forall y :: y in ys ==> y in xs && keep(y)
    ensures forall x :: x in xs && keep(x) ==> x in ys
    ensures |ys| == |xs| <==> forall i :: 0 <= i < |xs| ==> keep(xs[i])
  {
    if |xs| == 0 then []
    else
      var rest := Filter(xs[1..], keep);
      assert forall i :: 1 <= i < |xs| ==> xs[i] == xs[1..][i - 1];
      if keep(xs[0]) then [xs[0]] + rest else rest
  }

  /** The filter distributes over concatenation, so it keeps the relative
      order of the elements it keeps. */
  lemma {:induction false} FilterConcat<T>(a: seq<T>, b: seq<T>, keep: T -> bool)
    ensures Filter(a + b, keep) == Filter(a, keep) + Filter(b, keep)
  {
    if |a| == 0 {
      assert a + b == b;
    } else {
      var x, t := a[0], a[1..];
      var ft, fb := Filter(t, keep), Filter(b, keep);
      var head := if keep(x) then [x] else [];
      calc {
        Filter(a + b, keep);
      == { assert a + b == [x] + (t + b); FilterCons(x, t + b, keep); }
        head + Filter(t + b, keep);
      == { FilterConcat(t, b, keep); }
        head + (ft + fb);
      ==
        (head + ft) + fb;
      == { assert a == [x] + t; FilterCons(x, t, keep); }
        Filter(a, keep) + fb;
      }
    }
  }

  /** One step of the filter: the head is kept exactly when it passes. */
  lemma FilterCons<T>(x: T, t: seq<T>, keep: T -> bool)
    ensures Filter([x] + t, keep) == (if keep(x) then [x] else []) + Filter(t, keep)
  {
    assert ([x] + t)[1..] == t;
  }

  /** Filtering twice with the same test changes nothing more. */
  lemma {:induction false} FilterIdempotent<T>(xs: seq<T>, keep: T -> bool)
    ensures Filter(Filter(xs, keep), keep) == Filter(xs, keep)
  {
    if |xs| > 0 {
      FilterIdempotent(xs[1..], keep);
      if keep(xs[0]) {
        var rest := Filter(xs[1..], keep);
        assert ([xs[0]] + rest)[1..] == rest;
      }
    }
  }

  /** When every element passes, the filter returns its input. */
  lemma {:induction false} FilterKeepsAll<T>(xs: seq<T>, keep: T -> bool)
    requires forall i :: 0 <= i < |xs| ==> keep(xs[i])
    ensures Filter(xs, keep) == xs
  {
    if |xs| > 0 {
      var tail := xs[1..];
      assert forall i :: 0 <= i < |tail| ==> keep(tail[i]) by {
        forall i | 0 <= i < |tail| ensures keep(tail[i]) {
          assert tail[i] == xs[i + 1];
        }
      }
      assert keep(xs[0]);
      calc {
        Filter(xs, keep);
      == { assert xs == [xs[0]] + tail; FilterCons(xs[0], tail, keep); }
        [xs[0]] + Filter(tail, keep);
      == { FilterKeepsAll(tail, keep); }
        [xs[0]] + tail;
      == { assert xs == [xs[0]] + tail; }
        xs;
      }
    }
  }

  /** The files whose MIME type is "application/pdf", in their order. */
  function PdfFiles(files: seq<File>): seq<File> {
    Filter(files, IsPdf)
  }

  const FilteredOut: string := "Only PDF files are supported. Non-PDF files were filtered out."

  /** `handleFileSelect`: the PDF files become the selection; the message
      is set exactly when some file was dropped. */
  function SelectFiles(files: seq<File>): (r: (seq<File>, Option<string>))
    ensures r.0 == PdfFiles(files)
    ensures r.1.Some? <==> exists i :: 0 <= i < |files| && !IsPdf(files[i])
    ensures r.1.Some? ==> r.1.value == FilteredOut
  {
    var kept := PdfFiles(files);
    (kept, if |kept| != |files| then Some(FilteredOut) else None)
  }

  // -----------------------------------------------------------------------
  // Messages
  // -----------------------------------------------------------------------

  /** A message is shown in the error colour when it mentions "Error" or
      "Failed" (case matters). */
  predicate IsErrorMessage(m: string) {
    Contains(m, "Error") || Contains(m, "Failed")
  }

  /** A message led by "Error" is shown as an error. */
  lemma ErrorPrefixIsError(rest: string)
    ensures IsErrorMessage("Error" + rest)
  {
    assert StartsWith("Error" + rest, "Error");
  }

  /** A message led by "Failed" is shown as an error. */
  lemma FailedPrefixIsError(rest: string)
    ensures IsErrorMessage("Failed" + rest)
  {
    assert StartsWith("Failed" + rest, "Failed");
  }

  function IndexedText(pages: Option<int>, files: nat): string {
    "Successfully indexed " + NumberText(pages) + " pages from " + NatToString(files) + " documents"
  }

  /** The message after a successful search. */
  function SearchDoneText(total: Option<int>): (t: string)
    ensures TruthyNumber(total) ==> t == "Found " + IntToString(total.value) + " results"
    ensures !TruthyNumber(total) ==> t == SearchCompleted
  {
    if TruthyNumber(total) then "Found " + IntToString(total.value) + " results" else SearchCompleted
  }

  const SearchCompleted: string := "Search completed"
  const SearchFailed: string := "Search failed"
  const IndexFailed: string := "Failed to index documents"
  const ClearFailed: string := "Failed to clear collection"
  const ClearedText: string := "Collection cleared successfully"
  const SelectFirst: string := "Please select PDF files to index"
  const EnterQuery: string := "Please enter a search query"
  const UnknownError: string := "Unknown error"

  /** The fallback text of a failed search says "failed" in lower case, so
      it is shown in the success colour. */
  lemma SearchFallbackShownAsSuccess()
    ensures !IsErrorMessage(SearchFailed)
  {
    var m := SearchFailed;
    assert 'E' !in m && 'F' !in m;
    NoCharNoContains(m, "Error");
    NoCharNoContains(m, "Failed");
  }

  /** The fallbacks of a failed index or clear are shown as errors. */
  lemma OtherFallbacksShownAsErrors()
    ensures IsErrorMessage(IndexFailed) && IsErrorMessage(ClearFailed)
  {
    var i, c := IndexFailed, ClearFailed;
    assert i[..6] == "Failed" && c[..6] == "Failed";
    assert StartsWith(i, "Failed") && StartsWith(c, "Failed");
  }

  /** Text that lacks the pattern's first character does not contain it. */
  lemma {:induction false} NoCharNoContains(s: string, p: string)
    requires |p| > 0 && p[0] !in s
    ensures !Contains(s, p)
    decreases |s|
  {
    if |s| > 0 {
      assert forall c :: c in s[1..] ==> c in s;
      NoCharNoContains(s[1..], p);
      if |p| <= |s| {
        assert s[..|p|][0] == s[0];
      }
    }
  }

  // -----------------------------------------------------------------------
  // Outcomes of the dashboard actions
  // -----------------------------------------------------------------------

  const IndexErrorLead: string := "Error indexing documents: "
  const SearchErrorLead: string := "Error searching documents: "
  const InfoErrorLead: string := "Error getting collection info: "
  const ClearErrorLead: string := "Error clearing collection: "

  /** The text shown when an awaited call throws: the lead, then the
      error's message or "Unknown error". */
  function ThrownMessage(lead: string, error: Option<string>): (m: string)
    ensures StartsWith(m, lead)
  {
    lead + ThrownText(error, UnknownError)
  }

  /** Whether an action succeeded and the message it leaves. */
  datatype Outcome = Outcome(succeeded: bool, message: string)

  /** Indexing `files` documents: the count message when the reply's status
      is "success", the reply's message or a fallback otherwise, the
      thrown message when the call throws. */
  function IndexOutcome(reply: Call<IndexResponse>, files: nat): (o: Outcome)
    ensures o.succeeded <==> reply.Returned? && reply.value.status == "success"
    ensures o.succeeded ==> o.message == IndexedText(reply.value.indexedPages, files)
    ensures reply.Returned? && !o.succeeded ==> o.message == OrText(reply.value.message, IndexFailed)
    ensures reply.Threw? ==> o.message == ThrownMessage(IndexErrorLead, reply.error)
  {
    match reply
    case Threw(e) => Outcome(false, ThrownMessage(IndexErrorLead, e))
    case Returned(r) =>
      if r.status == "success" then Outcome(true, IndexedText(r.indexedPages, files))
      else Outcome(false, OrText(r.message, IndexFailed))
  }

  /** A search: the result count (or "Search completed") on success. */
  function SearchOutcome(reply: Call<SearchResponse>): (o: Outcome)
    ensures o.succeeded <==> reply.Returned? && reply.value.status == "success"
    ensures o.succeeded ==> o.message == SearchDoneText(reply.value.totalResults)
    ensures reply.Returned? && !o.succeeded ==> o.message == OrText(reply.value.message, SearchFailed)
    ensures reply.Threw? ==> o.message == ThrownMessage(SearchErrorLead, reply.error)
  {
    match reply
    case Threw(e) => Outcome(false, ThrownMessage(SearchErrorLead, e))
    case Returned(r) =>
      if r.status == "success" then Outcome(true, SearchDoneText(r.totalResults))
      else Outcome(false, OrText(r.message, SearchFailed))
  }

  /** Clearing the collection. */
  function ClearOutcome(reply: Call<ClearResponse>): (o: Outcome)
    ensures o.succeeded <==> reply.Returned? && reply.value.status == "success"
    ensures o.succeeded ==> o.message == ClearedText
    ensures reply.Returned? && !o.succeeded ==> o.message == OrText(reply.value.message, ClearFailed)
    ensures reply.Threw? ==> o.message == ThrownMessage(ClearErrorLead, reply.error)
  {
    match reply
    case Threw(e) => Outcome(false, ThrownMessage(ClearErrorLead, e))
    case Returned(r) =>
      if r.status == "success" then Outcome(true, ClearedText)
      else Outcome(false, OrText(r.message, ClearFailed))
  }

  /** A message whose lead starts with "Error" is shown as an error. */
  lemma ErrorLeadShownAsError(lead: string, t: string)
    requires StartsWith(lead, "Error")
    ensures IsErrorMessage(lead + t)
  {
    var error := "Error";
    assert (lead + t)[..|error|] == lead[..|error|];
    assert StartsWith(lead + t, error);
  }

  /** Every message left by a call that threw is shown as an error. */
  lemma ThrownMessagesShownAsErrors(e: Option<string>)
    ensures IsErrorMessage(ThrownMessage(IndexErrorLead, e))
    ensures IsErrorMessage(ThrownMessage(SearchErrorLead, e))
    ensures IsErrorMessage(ThrownMessage(InfoErrorLead, e))
    ensures IsErrorMessage(ThrownMessage(ClearErrorLead, e))
  {
    var t := ThrownText(e, UnknownError);
    var i, s, n, c := IndexErrorLead, SearchErrorLead, InfoErrorLead, ClearErrorLead;
    assert i[..5] == s[..5] == n[..5] == c[..5] == "Error";
    ErrorLeadShownAsError(i, t);
    ErrorLeadShownAsError(s, t);
    ErrorLeadShownAsError(n, t);
    ErrorLeadShownAsError(c, t);
  }

  /** Number texts hold neither 'E' nor 'F'. */
  lemma NumberTextPlain(n: Option<int>)
    ensures 'E' !in NumberText(n) && 'F' !in NumberText(n)
  {
    if n.Some? {
      var v := n.value;
      var d := if v < 0 then -v else v;
      NatToStringHasNo(d, 'E');
      NatToStringHasNo(d, 'F');
    } else {
      var u := "undefined";
      assert 'E' !in u && 'F' !in u;
    }
  }

  /** Text holding neither 'E' nor 'F' is shown in the success colour. */
  lemma PlainTextShownAsSuccess(m: string)
    requires 'E' !in m && 'F' !in m
    ensures !IsErrorMessage(m)
  {
    var error, failed := "Error", "Failed";
    NoCharNoContains(m, error);
    NoCharNoContains(m, failed);
  }

  /** The message of a successful index is shown in the success colour. */
  lemma IndexedTextShownAsSuccess(pages: Option<int>, files: nat)
    ensures !IsErrorMessage(IndexedText(pages, files))
  {
    var a, b, c := "Successfully indexed ", " pages from ", " documents";
    assert 'E' !in a + b + c && 'F' !in a + b + c;
    NumberTextPlain(pages);
    NatToStringHasNo(files, 'E');
    NatToStringHasNo(files, 'F');
    PlainTextShownAsSuccess(IndexedText(pages, files));
  }

  /** The message of a successful search is shown in the success colour. */
  lemma SearchDoneShownAsSuccess(total: Option<int>)
    ensures !IsErrorMessage(SearchDoneText(total))
  {
    if TruthyNumber(total) {
      NumberTextPlain(total);
      FoundTextShownAsSuccess(IntToString(total.value));
    } else {
      var d := SearchCompleted;
      assert 'E' !in d && 'F' !in d;
      PlainTextShownAsSuccess(d);
    }
  }

  /** The message of a successful clear is shown in the success colour. */
  lemma ClearedShownAsSuccess()
    ensures !IsErrorMessage(ClearedText)
  {
    var e := ClearedText;
    assert 'E' !in e && 'F' !in e;
    PlainTextShownAsSuccess(e);
  }

  /** "Found {n} results" starts with 'F' but never contains "Failed". */
  lemma FoundTextShownAsSuccess(n: string)
    requires 'E' !in n && 'F' !in n
    ensures !IsErrorMessage("Found " + n + " results")
  {
    var failed := "Failed";
    var head, tail := "F", "ound " + n + " results";
    var m := head + tail;
    assert m == "Found " + n + " results";
    assert 'E' !in m && 'F' !in tail;
    NoCharNoContains(m, "Error");
    NoCharNoContains(tail, failed);
    assert !StartsWith(m, failed) by {
      assert m[1] == 'o' && failed[1] == 'a';
    }
    NotContainsAfterPrefix(head, tail, failed);
  }
}
