/** The search provider shared by the pages: the query being typed, the
    results found so far, and the page token of the next page, with the
    transitions of a new search, a further page, and clearing. The service
    call is an oracle: each transition is given the answer it receives. */
module SearchContext {
  import opened Wrappers
  import opened Text
  import opened DriveModel
  import opened DriveService

  /** The message shown when the service call fails. */
  const SEARCH_ERROR := "An error occurred while searching. Please try again."

  /** `searchQuery`, `files`, `loading`, `error` and `nextPageToken`. */
  datatype SearchState = SearchState(query: string, files: seq<DriveFile>, loading: bool,
                                     error: Option<string>, nextPageToken: Option<string>)

  /** The provider's state when it mounts. */
  const INITIAL := SearchState("", [], false, None, None)

  /** `handleSearch(pageToken)`, given the answer of `searchFiles` when it is
      called: a blank query clears the results without calling; otherwise the
      answer's files are appended (with a truthy page token) or replace the
      results, and a failure empties them and sets the error. */
  function SearchStep(s: SearchState, pageToken: Option<string>, answer: Result<SearchResponse, UpstreamError>): SearchState {
    if Blank(s.query) then s.(files := [], nextPageToken := None)
    else match answer
      case Success(r) =>
        s.(files := if Truthy(pageToken) then s.files + r.files else r.files,
           loading := false, error := None, nextPageToken := r.nextPageToken)
      case Failure(_) => s.(files := [], loading := false, error := Some(SEARCH_ERROR))
  }

  /** `hasMore`: `!!nextPageToken`. */
  predicate HasMore(s: SearchState) {
    Truthy(s.nextPageToken)
  }

  /** `loadMore()`: the next page, when there is a token. */
  function LoadMoreStep(s: SearchState, answer: Result<SearchResponse, UpstreamError>): SearchState {
    if HasMore(s) then SearchStep(s, s.nextPageToken, answer) else s
  }

  /** `clearSearch()`'s new state: `loading` is the only field it keeps. */
  function Cleared(s: SearchState): SearchState {
    SearchState("", [], s.loading, None, None)
  }

  /** A run of `loadMore()` calls, each answered with the given page. */
  function LoadPages(s: SearchState, pages: seq<SearchResponse>): SearchState
    decreases |pages|
  {
    if pages == [] then s else LoadPages(LoadMoreStep(s, Success(pages[0])), pages[1..])
  }

  /** The files of the pages, in order. */
  function Flatten(pages: seq<SearchResponse>): seq<DriveFile>
    decreases |pages|
  {
    if pages == [] then [] else pages[0].files + Flatten(pages[1..])
  }

  /** Every page but the last carries a truthy token. */
  predicate TokensChain(pages: seq<SearchResponse>) {
    forall i :: 0 <= i < |pages| - 1 ==> Truthy(pages[i].nextPageToken)
  }

  /** A blank query makes no call: the results and the token are cleared and
      nothing else changes. */
  lemma BlankSearchClears(s: SearchState, pageToken: Option<string>, answer: Result<SearchResponse, UpstreamError>)
    requires Trim(s.query) == ""
    ensures var t := SearchStep(s, pageToken, answer);
      t == s.(files := [], nextPageToken := None) && !HasMore(t)
  {
    BlankIsAllSpace(s.query);
  }

  /** A successful search keeps the old results exactly when the page token is
      truthy, puts the answer's files after them, takes the answer's token,
      clears the error and ends loading. */
  lemma SearchSucceeds(s: SearchState, pageToken: Option<string>, r: SearchResponse)
    requires Trim(s.query) != ""
    ensures var t := SearchStep(s, pageToken, Success(r));
      && t.files == (if Truthy(pageToken) then s.files else []) + r.files
      && t.nextPageToken == r.nextPageToken && t.error == None && !t.loading && t.query == s.query
  {
    BlankIsAllSpace(s.query);
  }

  /** A failed search empties the results, sets the fixed message, ends
      loading, and keeps the page token it had. */
  lemma SearchFails(s: SearchState, pageToken: Option<string>, e: UpstreamError)
    requires Trim(s.query) != ""
    ensures var t := SearchStep(s, pageToken, Failure(e));
      && t.files == [] && t.error == Some("An error occurred while searching. Please try again.")
      && !t.loading && t.nextPageToken == s.nextPageToken && t.query == s.query
  {
    BlankIsAllSpace(s.query);
  }

  /** Clearing resets everything but `loading`, and leaves nothing to load. */
  lemma ClearResets(s: SearchState)
    ensures var t := Cleared(s);
      t.query == "" && t.files == [] && t.error == None && !HasMore(t) && t.loading == s.loading
  {
  }

  /** Without a token, any run of `loadMore()` calls changes nothing. */
  lemma {:induction false} NoTokenNoMore(s: SearchState, pages: seq<SearchResponse>)
    requires !HasMore(s)
    ensures LoadPages(s, pages) == s
    decreases |pages|
  {
    if pages != [] {
      NoTokenNoMore(s, pages[1..]);
    }
  }

  /** One further page, when there is a token, goes after the results. */
  lemma LoadMoreAppends(s: SearchState, r: SearchResponse)
    requires !Blank(s.query) && HasMore(s)
    ensures LoadMoreStep(s, Success(r))
         == s.(files := s.files + r.files, loading := false, error := None, nextPageToken := r.nextPageToken)
  {
  }

  /** The pages after the first still chain, and the first has a token. */
  lemma TokensChainTail(pages: seq<SearchResponse>)
    requires |pages| >= 2 && TokensChain(pages)
    ensures TokensChain(pages[1..]) && Truthy(pages[0].nextPageToken)
  {
    forall i | 0 <= i < |pages| - 2
      ensures Truthy(pages[1..][i].nextPageToken)
    {
      assert pages[1..][i] == pages[i + 1];
    }
  }

  /** Pages loaded one after another, each with a token pointing to the next,
      pile up in order behind the results already there; the token is the last
      page's. */
  lemma {:induction false} LoadPagesAppend(s: SearchState, pages: seq<SearchResponse>)
    requires !Blank(s.query) && pages != [] && HasMore(s) && TokensChain(pages)
    ensures var t := LoadPages(s, pages);
      && t.files == s.files + Flatten(pages)
      && t.nextPageToken == pages[|pages| - 1].nextPageToken
      && t.error == None && !t.loading && t.query == s.query
    decreases |pages|
  {
    LoadMoreAppends(s, pages[0]);
    if |pages| >= 2 {
      TokensChainTail(pages);
      LoadPagesAppend(LoadMoreStep(s, Success(pages[0])), pages[1..]);
      assert s.files + pages[0].files + Flatten(pages[1..]) == s.files + (pages[0].files + Flatten(pages[1..]));
    }
  }

  /** The provider: its state lives in five fields that the callbacks set. */
  class SearchProvider {
    var searchQuery: string
    var files: seq<DriveFile>
    var loading: bool
    var error: Option<string>
    var nextPageToken: Option<string>

    /** The fields, as a value. */
    function State(): SearchState
      reads this
    {
      SearchState(searchQuery, files, loading, error, nextPageToken)
    }

    constructor ()
      ensures State() == INITIAL
    {
      searchQuery := "";
      files := [];
      loading := false;
      error := None;
      nextPageToken := None;
    }

    /** `setSearchQuery(query)` */
    method SetSearchQuery(query: string)
      modifies this
      ensures State() == old(State()).(query := query)
    {
      searchQuery := query;
    }

    /** `handleSearch(pageToken)`; `called` tells whether the service was
        asked, in which case `answer` is what it answered. */
    method HandleSearch(pageToken: Option<string>, answer: Result<SearchResponse, UpstreamError>) returns (called: bool)
      modifies this
      ensures called <==> !Blank(old(searchQuery))
      ensures State() == SearchStep(old(State()), pageToken, answer)
    {
      if Blank(searchQuery) {
        files := [];
        nextPageToken := None;
        return false;
      }
      loading := true;
      error := None;
      match answer {
        case Success(r) =>
          if Truthy(pageToken) {
            files := files + r.files;
          } else {
            files := r.files;
          }
          nextPageToken := r.nextPageToken;
        case Failure(_) =>
          error := Some(SEARCH_ERROR);
          files := [];
      }
      loading := false;
      called := true;
    }

    /** The effect that searches whenever the location or the query changes
        while the search page is shown. */
    method OnChange(pathname: string, answer: Result<SearchResponse, UpstreamError>) returns (called: bool)
      modifies this
      ensures called <==> pathname == "/search" && !Blank(old(searchQuery))
      ensures State() == if called then SearchStep(old(State()), None, answer) else old(State())
    {
      called := false;
      if pathname == "/search" && !Blank(searchQuery) {
        called := HandleSearch(None, answer);
      }
    }

    /** `performSearch()`: where it navigates, if anywhere. */
    method PerformSearch(encode: string -> string) returns (target: Option<string>)
      ensures target.Some? <==> Trim(searchQuery) != ""
      ensures target.Some? ==> target.value == "/search?q=" + encode(Trim(searchQuery))
    {
      BlankIsAllSpace(searchQuery);
      if !Blank(searchQuery) {
        target := Some("/search?q=" + encode(Trim(searchQuery)));
      } else {
        target := None;
      }
    }

    /** `clearSearch()`: resets the state, and leaves the search page for the
        home page. */
    method ClearSearch(pathname: string) returns (target: Option<string>)
      modifies this
      ensures State() == Cleared(old(State()))
      ensures target == if pathname == "/search" then Some("/") else None
    {
      searchQuery := "";
      files := [];
      nextPageToken := None;
      error := None;
      target := if pathname == "/search" then Some("/") else None;
    }

    /** `loadMore()` */
    method LoadMore(answer: Result<SearchResponse, UpstreamError>) returns (called: bool)
      modifies this
      ensures called <==> Truthy(old(nextPageToken)) && !Blank(old(searchQuery))
      ensures State() == LoadMoreStep(old(State()), answer)
    {
      called := false;
      if Truthy(nextPageToken) {
        called := HandleSearch(nextPageToken, answer);
      }
    }

    /** `hasMore` as the provider exposes it. */
    function HasMoreResults(): (r: bool)
      reads this
      ensures r <==> nextPageToken.Some? && nextPageToken.value != ""
    {
      HasMore(State())
    }
  }
}
