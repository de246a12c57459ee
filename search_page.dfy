/** The search results page: its own query (taken from the `q` parameter of
    the URL), results, loading flag and next-page token, the search and
    load-more transitions, and the title above the results. The service call
    is an oracle: each transition is given the answer it receives. */
module SearchPage {
  import opened Wrappers
  import opened Text
  import opened DriveModel
  import opened DriveService

  /** `query`, `files`, `loading` and `nextPageToken`. */
  datatype PageState = PageState(query: string, files: seq<DriveFile>, loading: bool, nextPageToken: Option<string>)

  /** What the page's effect leaves: the new state, and the query the service
      was asked for, if it was asked. */
  datatype EffectResult = EffectResult(state: PageState, askedFor: Option<string>)

  /** The state when the page mounts: the `q` parameter, or "" for a missing
      or empty one. */
  function Mounted(q: Option<string>): (s: PageState)
    ensures s.files == [] && !s.loading && s.nextPageToken == None
    ensures s.query != "" <==> Truthy(q)
    ensures s.query != "" ==> q == Some(s.query)
  {
    PageState(if Truthy(q) then q.value else "", [], false, None)
  }

  /** The query `handleSearch` sends, if it sends one. */
  function AskedFor(s: PageState): Option<string> {
    if Blank(s.query) then None else Some(s.query)
  }

  /** `handleSearch(pageToken)`, given the answer of `searchFiles` when it is
      called: a blank query does nothing; otherwise the answer's files are
      appended (with a truthy page token) or replace the results, and a
      failure changes nothing but the loading flag. */
  function PageSearch(s: PageState, pageToken: Option<string>, answer: Result<SearchResponse, UpstreamError>): PageState {
    if Blank(s.query) then s
    else match answer
      case Success(r) =>
        s.(files := if Truthy(pageToken) then s.files + r.files else r.files,
           loading := false, nextPageToken := r.nextPageToken)
      case Failure(_) => s.(loading := false)
  }

  /** The effect on a change of the URL parameters, as written: it sets the
      query, then runs the `handleSearch` of the same render, which still
      holds the previous query. */
  function ParamsEffectAsWritten(s: PageState, q: Option<string>, answer: Result<SearchResponse, UpstreamError>): EffectResult {
    if !Truthy(q) then EffectResult(s, None)
    else EffectResult(PageSearch(s, None, answer).(query := q.value), AskedFor(s))
  }

  /** The effect as intended: the search runs for the new query. */
  function ParamsEffect(s: PageState, q: Option<string>, answer: Result<SearchResponse, UpstreamError>): EffectResult {
    if !Truthy(q) then EffectResult(s, None)
    else
      var t := s.(query := q.value);
      EffectResult(PageSearch(t, None, answer), AskedFor(t))
  }

  /** `getSearchTitle()` */
  function SearchTitle(s: PageState): Option<string> {
    if s.query == "" then None
    else if s.loading then Some("Searching...")
    else if |s.files| == 0 then Some("No results found for \"" + s.query + "\"")
    else Some("Search results for \"" + s.query + "\"")
  }

  /** `title` ends with `query` between double quotes. */
  predicate QuotesAtEnd(title: string, query: string) {
    |title| >= |query| + 2 && title[|title| - |query| - 2..] == "\"" + query + "\""
  }

  /** A blank query makes no call and changes nothing. */
  lemma PageBlankSearch(s: PageState, pageToken: Option<string>, answer: Result<SearchResponse, UpstreamError>)
    requires Trim(s.query) == ""
    ensures PageSearch(s, pageToken, answer) == s && AskedFor(s) == None
  {
    BlankIsAllSpace(s.query);
  }

  /** A successful search asks for the page's query, keeps the old results
      exactly when the page token is truthy, puts the answer's files after
      them, takes the answer's token and ends loading. */
  lemma PageSearchSucceeds(s: PageState, pageToken: Option<string>, r: SearchResponse)
    requires Trim(s.query) != ""
    ensures AskedFor(s) == Some(s.query)
    ensures var t := PageSearch(s, pageToken, Success(r));
      && t.files == (if Truthy(pageToken) then s.files else []) + r.files
      && t.nextPageToken == r.nextPageToken && !t.loading && t.query == s.query
  {
    BlankIsAllSpace(s.query);
  }

  /** A failed search keeps the results and the token; only loading ends. */
  lemma PageSearchFails(s: PageState, pageToken: Option<string>, e: UpstreamError)
    requires Trim(s.query) != ""
    ensures PageSearch(s, pageToken, Failure(e)) == s.(loading := false)
  {
    BlankIsAllSpace(s.query);
  }

  /** The title: none without a query; "Searching..." while loading; then a
      sentence that ends with the query in double quotes and that starts with
      "No results" exactly when there are no results. */
  lemma TitleCases(s: PageState)
    ensures SearchTitle(s).None? <==> s.query == ""
    ensures s.query != "" && s.loading ==> SearchTitle(s) == Some("Searching...")
    ensures s.query != "" && !s.loading ==>
      var title := SearchTitle(s).value;
      && QuotesAtEnd(title, s.query)
      && |title| >= 10 && (title[..10] == "No results" <==> |s.files| == 0)
  {
    if s.query != "" && !s.loading {
      var lead := if |s.files| == 0 then "No results found for \"" else "Search results for \"";
      var title := lead + s.query + "\"";
      assert SearchTitle(s).value == title;
      assert title[|title| - |s.query| - 2..] == "\"" + s.query + "\"" by {
        assert title == lead[..|lead| - 1] + ("\"" + s.query + "\"");
      }
      assert title[..10] == lead[..10];
      assert |s.files| != 0 ==> title[..10][0] == 'S';
    }
  }

  /** As written, a new `q` on a page already showing another query is shown
      in the title, but the search asks for the previous query, or for nothing
      when the previous one was blank. */
  lemma StaleQuerySearched(s: PageState, q: Option<string>, answer: Result<SearchResponse, UpstreamError>)
    requires Truthy(q) && q.value != s.query
    ensures var out := ParamsEffectAsWritten(s, q, answer);
      && out.state.query == q.value
      && out.askedFor != Some(out.state.query)
      && out.askedFor == (if Trim(s.query) == "" then None else Some(s.query))
  {
    BlankIsAllSpace(s.query);
  }

  /** As intended, a new non-blank `q` is the query searched for, shown in
      the title, and the first page of its answer replaces the results. */
  lemma EffectSearchesShownQuery(s: PageState, q: Option<string>, answer: Result<SearchResponse, UpstreamError>)
    requires Truthy(q) && Trim(q.value) != ""
    ensures var out := ParamsEffect(s, q, answer);
      && out.state.query == q.value
      && out.askedFor == Some(q.value)
      && (answer.Success? ==> out.state.files == answer.value.files && !out.state.loading)
  {
    BlankIsAllSpace(q.value);
  }

  /** The page: its state lives in four fields. */
  class SearchResults {
    var query: string
    var files: seq<DriveFile>
    var loading: bool
    var nextPageToken: Option<string>

    /** The fields, as a value. */
    function State(): PageState
      reads this
    {
      PageState(query, files, loading, nextPageToken)
    }

    /** Mounting with the `q` parameter of the URL. */
    constructor (q: Option<string>)
      ensures State() == Mounted(q)
    {
      query := if Truthy(q) then q.value else "";
      files := [];
      loading := false;
      nextPageToken := None;
    }

    /** `handleSearch(pageToken)`; `askedFor` is the query sent to the service,
        if any, and `answer` is what it answered. */
    method HandleSearch(pageToken: Option<string>, answer: Result<SearchResponse, UpstreamError>)
      returns (askedFor: Option<string>)
      modifies this
      ensures askedFor == AskedFor(old(State()))
      ensures State() == PageSearch(old(State()), pageToken, answer)
    {
      if Blank(query) {
        return None;
      }
      askedFor := Some(query);
      loading := true;
      match answer {
        case Success(r) =>
          if Truthy(pageToken) {
            files := files + r.files;
          } else {
            files := r.files;
          }
          nextPageToken := r.nextPageToken;
        case Failure(_) =>
      }
      loading := false;
    }

    /** The effect on a change of the URL parameters, searching for the new
        query. */
    method OnSearchParams(q: Option<string>, answer: Result<SearchResponse, UpstreamError>)
      returns (askedFor: Option<string>)
      modifies this
      ensures EffectResult(State(), askedFor) == ParamsEffect(old(State()), q, answer)
    {
      askedFor := None;
      if Truthy(q) {
        query := q.value;
        askedFor := HandleSearch(None, answer);
      }
    }

    /** `onLoadMore`: the search again, with the page's token. */
    method LoadMore(answer: Result<SearchResponse, UpstreamError>) returns (askedFor: Option<string>)
      modifies this
      ensures askedFor == AskedFor(old(State()))
      ensures State() == PageSearch(old(State()), old(nextPageToken), answer)
    {
      askedFor := HandleSearch(nextPageToken, answer);
    }

    /** The title above the results. */
    function Title(): (title: Option<string>)
      reads this
      ensures title.None? <==> query == ""
      ensures title.Some? && !loading ==> QuotesAtEnd(title.value, query)
    {
      TitleCases(State());
      SearchTitle(State())
    }

    /** `hasMore` as the page passes it on: `!!nextPageToken`. */
    function HasMore(): (r: bool)
      reads this
      ensures r <==> nextPageToken.Some? && nextPageToken.value != ""
    {
      Truthy(nextPageToken)
    }
  }
}
