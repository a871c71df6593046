/** The dashboard layout's choice of the highlighted sidebar tab: the last
    '/'-segment of the path names the tab, and anything else falls back to
    search. */
module DashboardLayout {
  import opened Wrappers
  import opened Strings

  datatype Tab = Search | Upload | Collection | Profile

  /** The path segment, and the tab name, of each tab. */
  function TabName(t: Tab): string {
    match t
    case Search => "search"
    case Upload => "upload"
    case Collection => "collection"
    case Profile => "profile"
  }

  /** The tab a segment names, if any. */
  function TabOf(segment: string): (t: Option<Tab>)
    ensures t.Some? ==> TabName(t.value) == segment
    ensures t.None? ==> forall u: Tab :: TabName(u) != segment
  {
    if segment == "search" then Some(Search)
    else if segment == "upload" then Some(Upload)
    else if segment == "collection" then Some(Collection)
    else if segment == "profile" then Some(Profile)
    else None
  }

  /** Every tab name is recognised as its own tab. */
  lemma TabOfName(t: Tab)
    ensures TabOf(TabName(t)) == Some(t)
  {
    var n := TabName(t);
    assert TabName(TabOf(n).value) == n;
    match t
    case Search =>
    case Upload => assert n[0] == 'u';
    case Collection => assert n[0] == 'c';
    case Profile => assert n[0] == 'p';
  }

  /** `getActiveTab`: the tab the last segment names, search otherwise. */
  function GetActiveTab(pathname: string): (t: Tab)
    ensures TabName(t) == LastSegment(pathname, '/') || t == Search
    ensures (exists u: Tab :: TabName(u) == LastSegment(pathname, '/')) ==> TabName(t) == LastSegment(pathname, '/')
  {
    TabOf(LastSegment(pathname, '/')).GetOr(Search)
  }

  /** A path ending in a tab's name selects that tab, whatever comes
      before it. */
  lemma PathSelectsTab(front: string, t: Tab)
    ensures GetActiveTab(front + "/" + TabName(t)) == t
  {
    var n := TabName(t);
    assert '/' !in n by {
      match t
      case Search =>
      case Upload =>
      case Collection =>
      case Profile =>
    }
    assert front + "/" + n == front + ['/'] + n;
    LastSegmentAfter(front, n, '/');
    TabOfName(t);
  }

  /** Only the last segment counts: a tab name earlier in the path is
      ignored when a non-tab segment follows it. */
  lemma OnlyLastSegmentCounts(front: string, t: Tab, rest: string)
    requires '/' !in rest && TabOf(rest).None?
    ensures GetActiveTab(front + "/" + TabName(t) + "/" + rest) == Search
  {
    var p := front + "/" + TabName(t);
    assert p + "/" + rest == p + ['/'] + rest;
    LastSegmentAfter(p, rest, '/');
  }

  /** A trailing slash leaves an empty last segment, hence search. */
  lemma TrailingSlashSelectsSearch(front: string)
    ensures GetActiveTab(front + "/") == Search
  {
    assert front + "/" == front + ['/'] + "";
    LastSegmentAfter(front, "", '/');
  }

  /** The upload page's path with one more segment selects search. */
  lemma UploadSubpathSelectsSearch()
    ensures GetActiveTab("/dashboard/upload/x") == Search
  {
    var x := "x";
    assert '/' !in x;
    assert TabOf(x).None?;
    OnlyLastSegmentCounts("/dashboard", Upload, x);
    assert "/dashboard" + "/" + TabName(Upload) + "/" + x == "/dashboard/upload/x";
  }
}
