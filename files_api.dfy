/** The `/api/files` handler: a folder listing by folder id, or a name search,
    answered with the `files.list` page as it comes from Drive. The token is
    fetched first, with no cache; every failure after the method check is
    answered with 500. */
module FilesApi {
  import opened Wrappers
  import opened Text
  import opened DriveModel
  import opened DriveService
  import opened Http

  /** The request: its method and the `path`, `pageToken` and `search` query
      parameters (None when absent). */
  datatype FilesQuery = FilesQuery(httpMethod: string, path: Option<string>, pageToken: Option<string>, search: Option<string>)

  /** The status and JSON body sent, and the upstream calls made, in order. */
  datatype FilesOutcome = FilesOutcome(status: int, body: Json, calls: seq<UpstreamCall>)

  /** The sanitiser written out inline in the handler. */
  function SanitiseSearch(search: string): string {
    Trim(SpaceOutSeparators(StripOperators(search)))
  }

  /** The handler's inline sanitiser is the service's `formatSearchKeyword`,
      for every input. */
  lemma SameSanitiser(search: string)
    ensures SanitiseSearch(search) == FormatSearchKeyword(search)
  {
    if search == "" {
      assert SanitiseSearch(search) == Trim("");
    }
  }

  /** The search request: one clause per word, 100 per page, all drives. */
  function SearchListRequest(words: seq<string>, pageToken: Option<string>): ListRequest {
    ListRequest(SearchQuery(words), ORDER_BY, 100, "allDrives", true, IfTruthy(pageToken))
  }

  /** The listing request: `path` is used as the folder id as it is. */
  function FolderIdListRequest(path: Option<string>, pageToken: Option<string>): ListRequest {
    ListRequest(ListingQuery(Interpolated(path)), ORDER_BY, 100, "allDrives", true, IfTruthy(pageToken))
  }

  /** The answer to one `files.list` request, after the token call. */
  function Forward(request: ListRequest, list: ListRequest -> Result<Page, UpstreamError>): FilesOutcome {
    var calls := [TokenGrant, FilesList(request)];
    match list(request)
    case Failure(_) => FilesOutcome(500, ErrorJson("Failed to fetch files"), calls)
    case Success(page) => FilesOutcome(200, PageJson(page), calls)
  }

  /** The handler, given what the token endpoint and `files.list` answer. */
  function FilesHandler(q: FilesQuery, grant: Result<string, UpstreamError>,
                        list: ListRequest -> Result<Page, UpstreamError>): FilesOutcome {
    if q.httpMethod != "GET" then FilesOutcome(405, ErrorJson("Method not allowed"), [])
    else if grant.Failure? then FilesOutcome(500, ErrorJson("Failed to fetch files"), [TokenGrant])
    else if Truthy(q.search) then
      var formatted := SanitiseSearch(q.search.value);
      if formatted == "" then FilesOutcome(200, PageJson(Page([], None)), [TokenGrant])
      else Forward(SearchListRequest(SplitWords(formatted), q.pageToken), list)
    else Forward(FolderIdListRequest(q.path, q.pageToken), list)
  }

  /** Any method but GET is refused with 405 before any upstream call. */
  lemma MethodChecked(q: FilesQuery, grant: Result<string, UpstreamError>, list: ListRequest -> Result<Page, UpstreamError>)
    requires q.httpMethod != "GET"
    ensures FilesHandler(q, grant, list) == FilesOutcome(405, ErrorJson("Method not allowed"), [])
  {
  }

  /** A search that sanitises to nothing is answered with the empty page; the
      token has been requested, but no `files.list` call is made. */
  lemma EmptySearchShortCircuit(q: FilesQuery, grant: Result<string, UpstreamError>, list: ListRequest -> Result<Page, UpstreamError>)
    requires q.httpMethod == "GET" && grant.Success?
    requires Truthy(q.search) && FormatSearchKeyword(q.search.value) == ""
    ensures FilesHandler(q, grant, list) == FilesOutcome(200, PageJson(Page([], None)), [TokenGrant])
  {
    SameSanitiser(q.search.value);
  }

  /** A search that keeps some text makes one `files.list` call whose `q` is
      the fixed exclusions and, in parentheses, one `name contains` clause per
      word of the sanitised search, AND-joined in order; the words are
      non-empty and hold no white space and no quote. */
  lemma SearchQueryShape(q: FilesQuery, grant: Result<string, UpstreamError>, list: ListRequest -> Result<Page, UpstreamError>)
    requires q.httpMethod == "GET" && grant.Success?
    requires Truthy(q.search) && FormatSearchKeyword(q.search.value) != ""
    ensures var words := SplitWords(FormatSearchKeyword(q.search.value));
      var out := FilesHandler(q, grant, list);
      && |out.calls| == 2 && out.calls[1].FilesList?
      && out.calls[1].request.q
           == "trashed = false AND " + NATIVE_TYPES_EXCLUDED + " AND name !='.password' AND ("
              + JoinWith(NameClauses(words), " AND ") + ")"
      && forall i :: 0 <= i < |words| ==> words[i] != "" && NoSpace(words[i]) && '\'' !in words[i]
  {
    var formatted := FormatSearchKeyword(q.search.value);
    SameSanitiser(q.search.value);
    SearchRequestShape(q.search.value, q.pageToken, 100, true);
  }

  /** Without a search, the `q` lists the children of `path`, used as a
      folder id, excluding trashed items, `.password` and the native types. */
  lemma ListingQueryShape(q: FilesQuery, grant: Result<string, UpstreamError>, list: ListRequest -> Result<Page, UpstreamError>)
    requires q.httpMethod == "GET" && grant.Success? && !Truthy(q.search)
    ensures var out := FilesHandler(q, grant, list);
      && out.calls == [TokenGrant, FilesList(out.calls[1].request)]
      && out.calls[1].request.q
           == "'" + Interpolated(q.path) + "' in parents and trashed = false AND name !='.password' and "
              + NATIVE_TYPES_EXCLUDED
  {
  }

  /** Every `files.list` call orders folders first by name, asks for 100
      items, and carries the page token exactly when the request's is truthy. */
  lemma ListParameters(q: FilesQuery, grant: Result<string, UpstreamError>, list: ListRequest -> Result<Page, UpstreamError>, i: nat)
    requires var out := FilesHandler(q, grant, list); i < |out.calls| && out.calls[i].FilesList?
    ensures var r := FilesHandler(q, grant, list).calls[i].request;
      && r.orderBy == "folder,name,modifiedTime desc" && r.pageSize == 100
      && r.corpora == "allDrives" && r.includeItemsFromAllDrives
      && (r.pageToken.Some? <==> Truthy(q.pageToken))
      && (r.pageToken.Some? ==> r.pageToken == q.pageToken)
  {
    var out := FilesHandler(q, grant, list);
    if Truthy(q.search) {
      var formatted := SanitiseSearch(q.search.value);
      var request := SearchListRequest(SplitWords(formatted), q.pageToken);
      assert out.calls[i] == FilesList(request);
    } else {
      assert out.calls[i] == FilesList(FolderIdListRequest(q.path, q.pageToken));
    }
  }

  /** Upstream failures are answered with 500 and the fixed message; a
      successful call forwards Drive's page as it is. */
  lemma ErrorsAndPages(q: FilesQuery, grant: Result<string, UpstreamError>, list: ListRequest -> Result<Page, UpstreamError>)
    requires q.httpMethod == "GET"
    ensures var out := FilesHandler(q, grant, list);
      && (grant.Failure? ==> out.status == 500 && out.body == ErrorJson("Failed to fetch files"))
      && (|out.calls| == 2 ==>
            && out.calls[1].FilesList?
            && match list(out.calls[1].request)
               case Failure(_) => out.status == 500 && out.body == ErrorJson("Failed to fetch files")
               case Success(page) => out.status == 200 && out.body == PageJson(page))
  {
    if grant.Success? {
      if Truthy(q.search) {
        var formatted := SanitiseSearch(q.search.value);
        if formatted != "" {
          assert FilesHandler(q, grant, list) == Forward(SearchListRequest(SplitWords(formatted), q.pageToken), list);
        }
      } else {
        assert FilesHandler(q, grant, list) == Forward(FolderIdListRequest(q.path, q.pageToken), list);
      }
    }
  }
}
