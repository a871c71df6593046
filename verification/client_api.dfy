/** The browser's HTTP client for the ColPali API: bearer-token lookup in
    local storage and in the cookie string, header construction, the
    request each operation sends and the error each one throws on a non-OK
    reply. `fetch` is not modelled; a reply is a parameter. */
module ClientApi {
  import opened Wrappers
  import opened Strings
  import opened ClientTypes

  // -----------------------------------------------------------------------
  // Token lookup
  // -----------------------------------------------------------------------

  /** Where the code runs: on the server there is no `window`; in a browser
      there is local storage and `document.cookie`. */
  datatype Browser = NoWindow | Window(localStorage: map<string, string>, cookie: string)

  /** `localStorage.getItem(key)`. */
  function GetItem(b: Browser, key: string): Option<string>
    requires b.Window?
  {
    if key in b.localStorage then Some(b.localStorage[key]) else None
  }

  /** JavaScript truthiness of a string that may be `null`. */
  predicate Truthy(s: Option<string>) {
    s.Some? && s.value != ""
  }

  const CookieKey: string := "access_token="

  /** The position of the first cookie entry that starts with
      "access_token=". */
  function FindTokenRow(rows: seq<string>): (r: Option<nat>)
    ensures r.None? <==> forall i :: 0 <= i < |rows| ==> !StartsWith(rows[i], CookieKey)
    ensures r.Some? ==>
      && r.value < |rows| && StartsWith(rows[r.value], CookieKey)
      && forall i :: 0 <= i < r.value ==> !StartsWith(rows[i], CookieKey)
  {
    if |rows| == 0 then None
    else if StartsWith(rows[0], CookieKey) then Some(0)
    else match FindTokenRow(rows[1..])
      case None => None
      case Some(j) => Some(j + 1)
  }

  const CookieSeparator: string := "; "

  /** The token carried by the first "access_token=" entry, if any. */
  function TokenFromEntries(rows: seq<string>): Option<string> {
    match FindTokenRow(rows)
    case None => None
    case Some(i) => EntryValue(rows[i])
  }

  /** The cookie value as the client reads it: the entries are split on
      "; ", and the matching entry's text between its first and second
      '=' is taken. */
  function CookieToken(cookie: string): Option<string> {
    TokenFromEntries(Split(cookie, CookieSeparator))
  }

  /** `getAuthToken`: nothing outside a browser; otherwise local storage
      "auth_token", then "access_token", then the cookie, where an empty
      string counts as missing. */
  function GetAuthToken(b: Browser): (t: Option<string>)
    ensures b.NoWindow? ==> t.None?
    ensures t.Some? ==> t.value != ""
    ensures b.Window? && Truthy(GetItem(b, "auth_token")) ==> t == GetItem(b, "auth_token")
    ensures b.Window? && !Truthy(GetItem(b, "auth_token")) && Truthy(GetItem(b, "access_token")) ==>
      t == GetItem(b, "access_token")
    ensures b.Window? && !Truthy(GetItem(b, "auth_token")) && !Truthy(GetItem(b, "access_token")) ==>
      t == (if Truthy(CookieToken(b.cookie)) then CookieToken(b.cookie) else None)
  {
    if b.NoWindow? then None
    else
      var token := if Truthy(GetItem(b, "auth_token")) then GetItem(b, "auth_token") else GetItem(b, "access_token");
      if Truthy(token) then token
      else
        var fromCookie := CookieToken(b.cookie);
        if Truthy(fromCookie) then fromCookie else None
  }

  /** The value an "access_token=" entry carries: the text between its
      first and second '='. */
  function EntryValue(row: string): Option<string> {
    var parts := Split(row, "=");
    if |parts| >= 2 then Some(parts[1]) else None
  }

  /** An entry "access_token=" + v carries v's text up to its first '='. */
  lemma EntryValueOf(v: string, w: string, tail: string)
    requires '=' !in w
    requires v == w || v == w + "=" + tail
    ensures EntryValue(CookieKey + v) == Some(w)
  {
    var name, eq := "access_token", "=";
    assert eq[0] !in name;
    assert CookieKey + v == name + eq + v;
    SplitAfterPiece(name, v, eq);
    if v == w {
      SplitWithoutSep(w, eq);
    } else {
      SplitAfterPiece(w, tail, eq);
    }
  }

  /** The token comes from the first "access_token=" entry. */
  lemma TokenFromFirstEntry(entries: seq<string>, k: nat)
    requires k < |entries| && StartsWith(entries[k], CookieKey)
    requires forall i :: 0 <= i < k ==> !StartsWith(entries[i], CookieKey)
    ensures TokenFromEntries(entries) == EntryValue(entries[k])
  {
    var found := FindTokenRow(entries);
    assert found == Some(k);
  }

  /** In a "; "-joined cookie string whose entries hold no ';', the token
      is read from the first entry that starts with "access_token=". */
  lemma CookieTokenReadsFirstEntry(entries: seq<string>, k: nat)
    requires k < |entries| && StartsWith(entries[k], CookieKey)
    requires forall i :: 0 <= i < |entries| ==> ';' !in entries[i]
    requires forall i :: 0 <= i < k ==> !StartsWith(entries[i], CookieKey)
    ensures CookieToken(Join(entries, CookieSeparator)) == EntryValue(entries[k])
  {
    assert CookieSeparator[0] == ';';
    SplitJoin(entries, CookieSeparator);
    TokenFromFirstEntry(entries, k);
  }

  /** A cookie string written as "; "-joined entries gives back the value
      of the first "access_token" entry, provided no entry holds ';' and
      the value holds no '='. */
  lemma CookieTokenRoundTrip(entries: seq<string>, k: nat, v: string)
    requires k < |entries| && entries[k] == CookieKey + v
    requires forall i :: 0 <= i < |entries| ==> ';' !in entries[i]
    requires forall i :: 0 <= i < k ==> !StartsWith(entries[i], CookieKey)
    requires '=' !in v
    ensures CookieToken(Join(entries, CookieSeparator)) == Some(v)
  {
    assert entries[k][..|CookieKey|] == CookieKey;
    CookieTokenReadsFirstEntry(entries, k);
    EntryValueOf(v, v, "");
  }

  /** A value holding '=' is cut at it. */
  lemma CookieValueTruncated(before: string, after: string)
    requires '=' !in before && ';' !in before + "=" + after
    ensures CookieToken(CookieKey + before + "=" + after) == Some(before)
  {
    var v := before + "=" + after;
    var row := CookieKey + v;
    assert CookieKey + before + "=" + after == row;
    assert row[..|CookieKey|] == CookieKey;
    assert ';' !in CookieKey;
    assert ';' !in row;
    CookieTokenReadsFirstEntry([row], 0);
    assert Join([row], CookieSeparator) == row;
    EntryValueOf(v, before, after);
  }

  // -----------------------------------------------------------------------
  // Headers and requests
  // -----------------------------------------------------------------------

  datatype Headers = Headers(contentType: Option<string>, authorization: Option<string>)

  /** The Authorization value for a token. */
  function Bearer(token: string): string {
    "Bearer " + token
  }

  /** `createHeaders`: JSON content type always, Authorization exactly
      when a token is found. */
  function CreateHeaders(b: Browser): (h: Headers)
    ensures h.contentType == Some("application/json")
    ensures h.authorization.Some? <==> GetAuthToken(b).Some?
    ensures h.authorization.Some? ==> h.authorization.value == Bearer(GetAuthToken(b).value)
  {
    var token := GetAuthToken(b);
    Headers(Some("application/json"), if token.Some? then Some(Bearer(token.value)) else None)
  }

  datatype Body =
    | NoBody
    | JsonSearch(query: string, k: Option<int>, apiKey: Option<string>)
    | Form(entries: seq<(string, File)>)

  datatype Request = Request(httpMethod: string, url: string, headers: Headers, body: Body)

  /** The client, bound to a base URL. */
  datatype Api = Api(baseUrl: string)

  const DefaultBaseUrl: string := "http://localhost:8000"

  /** The constructor: an explicit base URL is used as given; without one
      the environment's URL is used when non-empty, else the default. */
  function NewApi(baseUrl: Option<string>, env: Option<string>): (api: Api)
    ensures baseUrl.Some? ==> api.baseUrl == baseUrl.value
    ensures baseUrl.None? && Truthy(env) ==> api.baseUrl == env.value
    ensures baseUrl.None? && !Truthy(env) ==> api.baseUrl == DefaultBaseUrl
  {
    Api(if baseUrl.Some? then baseUrl.value else if Truthy(env) then env.value else DefaultBaseUrl)
  }

  function SearchRequest(api: Api, b: Browser, query: string, k: Option<int>, apiKey: Option<string>): Request {
    Request("POST", api.baseUrl + "/colpali/search", CreateHeaders(b), JsonSearch(query, k, apiKey))
  }

  /** The index upload: a form with one "files" entry per file in order,
      no content type, and Authorization exactly when a token is found. */
  function IndexRequest(api: Api, b: Browser, files: seq<File>): (r: Request)
    ensures r.headers.contentType.None?
    ensures r.headers.authorization.Some? <==> GetAuthToken(b).Some?
    ensures r.headers.authorization.Some? ==> r.headers.authorization.value == Bearer(GetAuthToken(b).value)
    ensures r.body.Form? && |r.body.entries| == |files|
    ensures forall i :: 0 <= i < |files| ==> r.body.entries[i] == ("files", files[i])
  {
    var token := GetAuthToken(b);
    Request("POST", api.baseUrl + "/colpali/index",
            Headers(None, if token.Some? then Some(Bearer(token.value)) else None),
            Form(seq(|files|, i requires 0 <= i < |files| => ("files", files[i]))))
  }

  function InfoRequest(api: Api, b: Browser): Request {
    Request("GET", api.baseUrl + "/colpali/info", CreateHeaders(b), NoBody)
  }

  function ClearRequest(api: Api, b: Browser): Request {
    Request("DELETE", api.baseUrl + "/colpali/clear", CreateHeaders(b), NoBody)
  }

  /** The health probe sends no headers at all. */
  function HealthRequest(api: Api): Request {
    Request("GET", api.baseUrl + "/colpali/health", Headers(None, None), NoBody)
  }

  /** `getImageUrl`. */
  function ImageUrl(api: Api, imageId: string): (url: string)
    ensures StartsWith(url, api.baseUrl + "/colpali/image/")
  {
    api.baseUrl + "/colpali/image/" + imageId
  }

  /** The id is the last '/'-segment of its image URL when it holds no
      '/'. */
  lemma ImageUrlIdRoundTrip(api: Api, imageId: string)
    requires '/' !in imageId
    ensures LastSegment(ImageUrl(api, imageId), '/') == imageId
  {
    var front := api.baseUrl + "/colpali/image";
    assert ImageUrl(api, imageId) == front + ['/'] + imageId;
    LastSegmentAfter(front, imageId, '/');
  }

  // -----------------------------------------------------------------------
  // Replies
  // -----------------------------------------------------------------------

  datatype Operation = SearchOp | IndexOp | InfoOp | ClearOp | HealthOp

  /** The start of the error each operation throws. */
  function FailureLead(op: Operation): string {
    match op
    case SearchOp => "Search failed: "
    case IndexOp => "Indexing failed: "
    case InfoOp => "Failed to get collection info: "
    case ClearOp => "Failed to clear collection: "
    case HealthOp => "Health check failed: "
  }

  /** The thrown message for a non-OK reply: the status and, except for
      the health probe, the reply's text. */
  function FailureMessage(op: Operation, status: nat, text: string): (m: string)
    ensures StartsWith(m, FailureLead(op))
    ensures op == HealthOp ==> m == FailureLead(op) + NatToString(status)
    ensures op != HealthOp ==> m == FailureLead(op) + NatToString(status) + " " + text
  {
    if op == HealthOp then FailureLead(op) + NatToString(status)
    else FailureLead(op) + NatToString(status) + " " + text
  }

  /** The thrown message names the operation: different operations never
      throw the same message. */
  lemma FailureMessageNamesOperation(op1: Operation, op2: Operation, s1: nat, s2: nat, t1: string, t2: string)
    requires FailureMessage(op1, s1, t1) == FailureMessage(op2, s2, t2)
    ensures op1 == op2
  {
    var m := FailureMessage(op1, s1, t1);
    var l1, l2 := FailureLead(op1), FailureLead(op2);
    assert m[..|l1|] == l1 && m[..|l2|] == l2;
    assert m[0] == l1[0] == l2[0];
    if l1[0] == 'F' {
      assert m[10] == l1[10] == l2[10];
    }
  }

  datatype Reply<T> = Reply(ok: bool, status: nat, text: string, json: T)

  /** How an operation completes: the parsed body on an OK reply, the
      thrown error otherwise. */
  function Complete<T>(op: Operation, reply: Reply<T>): (r: Call<T>)
    ensures reply.ok ==> r == Returned(reply.json)
    ensures !reply.ok ==> r == Threw(Some(FailureMessage(op, reply.status, reply.text)))
  {
    if reply.ok then Returned(reply.json) else Threw(Some(FailureMessage(op, reply.status, reply.text)))
  }
}
