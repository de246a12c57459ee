# Google Drive index: a verified model of its core

The system is a file browser over a Google Drive folder tree. A shared
service object resolves virtual paths such as `/Books/Maths` to Drive folder
ids, one folder lookup per segment. It lists folders and searches by name
through the Drive v3 `files.list` endpoint, and it keeps an OAuth access
token cached for 3500 seconds. Four serverless handlers do the rest:

- `/api/files` lists a folder or searches.
- `/api/stream` streams a file, honouring byte ranges, or makes the file
  public and answers with its direct links.
- `/api/download` downloads a file or answers with its direct links.
- `/api/download.aspx` streams a file under its raw name.

On the client side, a search provider and a search page hold the query,
the results and the next-page token. A breadcrumb bar turns the path into
links and shows scroll arrows.

The model is split into these modules:

- `Text`: the JavaScript string operations the core relies on: `trim`,
  `split` on a character and on white space, `join`, `filter(Boolean)`,
  and `replace` of the first match.
- `JsNumber`: JavaScript numbers as integers or NaN, `String(n)` and
  `parseInt(s, 10)`.
- `DriveModel`: Drive's resources, the `files.list` parameters, and the
  query strings the core builds.
- `DriveService`: the `GoogleDrive` service. It is a class whose token
  cache fields are updated by its methods. Each method is proved against a
  pure function: `AccessTokenStep`, `ResolvePath`, `SearchRequest` and
  `AncestorChain`.
- `Http`: the response object of a handler, as a class with `modifies`
  frames. It also holds the failure replies shared by the handlers.
- `FilesApi`, `StreamApi`, `DownloadApi`, `DownloadAspx`: one module per
  handler.
  - Each handler except the files one (a pure function) is a method that
    writes to the response step by step. Each method is proved equal to
    a function giving the final reply and the list of upstream calls.
- `SearchContext`, `SearchPage`: the React state as classes whose fields
  the callbacks set. Each transition is proved equal to a function on a
  state value.
- `BreadcrumbNav`: the links of the breadcrumb bar, the arrow flags, and
  the scrolling element.

Every upstream call is a parameter standing for the answer it gets:

- the token endpoint: `grant`;
- a metadata read: `meta`;
- `files.list`: `list`;
- a folder lookup: `lookup`;
- the permission grant and the content request: `permission`, `content`.

The clock (`now`) and `encodeURIComponent`/`decodeURIComponent`
(`encode`, `decode`) are parameters too.

Where the code and its written description disagree, the model follows the
code:

- `/api/download.aspx` answers metadata without a name with 500 "Unable to
  find this file. Try again.", not with 404.
- It checks no HTTP method.
- It puts the raw, unencoded name in `Content-Disposition`. Node refuses a header value with a character outside tab, 0x20-0x7E and 0x80-0xFF, so for a name in, say, Chinese or Cyrillic the handler answers 500 'Failed to download file' (`DownloadAspx.UnsafeNameFails`).
- It forwards the client's `Range` header as it is.
- Its CORS header depends on a configuration flag.
- `/api/download` answers with direct links by default: it streams only
  when `inline` is truthy and `directLink` is not "true".
- `/api/stream` answers with links only for `directLink=true`.
- The stream handler accepts any `Range` value without validating it. A
  suffix range `bytes=-N` gives a NaN start (`StreamApi.SuffixRange`).
- `hasMore` is the truthiness of the token, so an empty token means no
  more pages.

## Model

| member | source | states |
|---|---|---|
| Text.Trim | src/services/driveService.js:195 | `trim()` leaves no white space at either end, and the result is the slice between the leading and the trailing white space |
| Text.TrimmedIsFixed | src/services/driveService.js:195 | a string with no white space at its ends is its own trim |
| Text.TrimKeepsText | src/services/driveService.js:195 | trimming keeps every non-space character as many times as it occurs |
| Text.BlankIsAllSpace | src/contexts/SearchContext.jsx:19 | `!q.trim()` holds exactly when every character of `q` is white space |
| Text.SplitOn | src/services/driveService.js:60 | `split('/')` gives at least one piece, and no piece holds the separator |
| Text.SplitJoin | src/services/driveService.js:60 | splitting undoes joining when no piece holds the separator |
| Text.JoinAppend | src/components/BreadcrumbNav.jsx:83 | joining one more piece appends the separator and that piece |
| Text.Compact | src/services/driveService.js:60 | `filter(Boolean)` keeps only non-empty pieces, all taken from the input |
| Text.CompactOne | src/services/driveService.js:60 | one piece is kept exactly when it is non-empty |
| Text.CompactAppend | src/services/driveService.js:60 | filtering a concatenation filters each part, so every non-empty piece is kept, in order |
| Text.SplitWords | src/services/driveService.js:209 | `split(/\s+/)` gives at least one piece, none holding white space |
| Text.SplitOneWord | src/services/driveService.js:209 | a string without white space is a single piece |
| Text.SplitAfterWord | src/services/driveService.js:209 | a word followed by a run of white space splits off whole as the first piece |
| Text.SplitJoinWords | src/services/driveService.js:209 | non-empty words joined by runs of white space split back into exactly those words, so no piece is cut inside a word |
| Text.LaterWordsNonEmpty | src/services/driveService.js:209 | every piece after the first is non-empty when the text does not end in white space |
| Text.WordsOfTrimmed | src/services/driveService.js:209 | a non-empty trimmed text splits into non-empty words without white space |
| Text.WordsCoverText | src/services/driveService.js:209 | the words, put back together, are the text without its white space |
| Text.TrimStart | api/stream.js:83 | drops exactly the leading white space, as `parseInt` does |
| Text.RemoveFirstPrefix | api/stream.js:82 | `replace(/bytes=/, '')` on a string that starts with `bytes=` drops exactly that prefix |
| JsNumber.Add | api/stream.js:85 | JavaScript addition gives an integer exactly when both operands are integers, and NaN otherwise |
| JsNumber.Sub | api/stream.js:84 | the same for subtraction, including `size - 1` on a missing size |
| JsNumber.NatDigits | api/stream.js:87 | `String(n)` is a non-empty run of digits with no leading zero |
| JsNumber.DigitsRoundTrip | api/stream.js:87 | reading back the numeral of `n` gives `n` |
| JsNumber.DigitRun | api/stream.js:83 | the digits `parseInt` reads form the longest run of digits at the front |
| JsNumber.LeadingDigits | api/stream.js:83 | an empty string parses to NaN, and a run of digits to its value |
| JsNumber.ParseShow | api/stream.js:83 | `parseInt(String(x), 10)` is `x` for every integer, negative ones included |
| DriveModel.IfTruthy | src/services/driveService.js:123 | `...(pageToken && { pageToken })`: the page token is sent exactly when it is truthy, and then unchanged; the Range header of `/api/download.aspx` is forwarded the same way |
| DriveModel.NameClauses | src/services/driveService.js:210 | one `name contains` clause per word, the i-th clause naming the i-th word |
| DriveModel.NameSearchIsConjunction | src/services/driveService.js:210 | the template ``name contains '${words.join("' AND name contains '")}'`` is the AND-join of one clause per word |
| DriveService.CachedTokenServed | src/services/driveService.js:22-24 | a truthy token with a truthy expiry still in the future is returned without calling the token endpoint, and the cache is unchanged |
| DriveService.RefreshOutcome | src/services/driveService.js:26-40 | otherwise the endpoint is called; on success the token is stored with expiry `now + 3500000`, on failure the same error is rethrown and the cache is untouched |
| DriveService.RefreshedTokenLifetime | src/services/driveService.js:22-35 | after a refresh at `t`, every call before `t + 3500 s` is served from the cache, and the first call at or after it refreshes again |
| DriveService.PathSegments | src/services/driveService.js:60 | the segments of a path are non-empty and free of "/" |
| DriveService.SegmentsOfJoinedPath | src/services/driveService.js:60 | "/" followed by non-empty, slash-free segments joined with "/" splits back into exactly those segments |
| DriveService.RootNeedsNoLookup | src/services/driveService.js:55-63 | "/" and every path without a non-empty segment resolve to the root with no lookup |
| DriveService.WalkAppend | src/services/driveService.js:63-77 | resolving `a + b` is resolving `a`, then `b` from the folder reached |
| DriveService.MissingSegmentFails | src/services/driveService.js:64-76 | a segment that fails to decode or has no matching folder makes the whole path unresolved, whatever follows it |
| DriveService.WalkFollowsChain | src/services/driveService.js:63-79 | a chain of folders, each the first match of the next segment under the previous one, resolves to its last folder |
| DriveService.WalkHasChain | src/services/driveService.js:63-79 | conversely, every resolved path has such a chain from the root to the folder found |
| DriveService.WithLinks | src/services/driveService.js:135-138 | one entry per upstream file, in order |
| DriveService.LinksForFilesOnly | src/services/driveService.js:135-138 | every file is kept in order and gets `BASE_URL/files/<id>?alt=media` exactly when it is not a folder |
| DriveService.StripOperators | src/services/driveService.js:193 | no quote, `=`, `<`, `>`, `/`, `\` or `:` remains after the first replace |
| DriveService.FormatSearchKeyword | src/services/driveService.js:190-196 | the sanitised keyword holds no stripped character and no separator, and has no white space at its ends |
| DriveService.StripKeeps | src/services/driveService.js:193 | the first replace keeps every other character as often as it occurs, and drops only the `!` of each `!=` |
| DriveService.SpaceOutKeeps | src/services/driveService.js:194 | the second replace keeps every character other than the separators as often as it occurs |
| DriveService.FormatKeeps | src/services/driveService.js:190-196 | the sanitiser keeps every character that is not stripped, not a separator and not white space, as often as it occurs; of the `!`, exactly those not followed by `=` |
| DriveService.StripNothing | src/services/driveService.js:193 | a string without the stripped characters is left as it is by the first replace |
| DriveService.FormatIdempotent | src/services/driveService.js:190-196 | sanitising twice is sanitising once |
| DriveService.SearchRequestShape | src/services/driveService.js:199-221 | a search request is made exactly when the sanitised query is not empty; its `q` AND-joins one clause per word in order, and the words are non-empty, have no white space and no quote, and together make up all the non-space text |
| DriveService.ChainFollowsParents | src/services/driveService.js:154-165 | the chain of items found ends with the item asked for and starts with a parentless item, and each item's first parent is the item before it |
| DriveService.EncodedNames | src/services/driveService.js:167 | one encoded name per item of the chain, in order |
| DriveService.ChainPathSegments | src/services/driveService.js:167-168 | the path starts with "/" and splits back into the encoded names, top first |
| DriveService.GoogleDrive.constructor | src/services/driveService.js:13-19 | the service starts with no token and no expiry |
| DriveService.GoogleDrive.GetAccessToken | src/services/driveService.js:21-41 | serves the cached token or refreshes it, as `AccessTokenStep` says, and updates the two fields accordingly |
| DriveService.GoogleDrive.FindPathId | src/services/driveService.js:54-80 | the loop returns exactly the folder `ResolvePath` reaches, or null |
| DriveService.GoogleDrive.ListFiles | src/services/driveService.js:105-148 | an unresolved path gives the empty listing with no request; otherwise the one request for the folder's children, and its files with links or its error |
| DriveService.GoogleDrive.SearchFiles | src/services/driveService.js:198-244 | an empty sanitised query gives an empty answer with no token request; otherwise `SearchRequest`'s request, and its page or its error |
| DriveService.GoogleDrive.FindPathById | src/services/driveService.js:154-169 | the loop over first parents gives the encoded path of the whole ancestor chain, or the first metadata error |
| Http.SizeNum | api/stream.js:84 | a size is an integer exactly when it is present |
| Http.Fail | api/stream.js:111-119 | when nothing was sent, 404 'File not found' for an upstream 404 and 500 with the handler's message otherwise; when something was sent, nothing changes |
| Http.AllowCors | api/stream.js:75-77 | sets the three CORS headers and nothing else |
| Http.ServerResponse.CheckedSetHeader | api/download.aspx.js:55 | `res.setHeader` sets the header exactly when every character of the value is tab, 0x20-0x7E or 0x80-0xFF, and otherwise throws with nothing set |
| Http.DispositionSafe | api/download.aspx.js:55 | the `Content-Disposition` value is accepted exactly when the file name is |
| FilesApi.SameSanitiser | api/files.js:41 | the handler's inline sanitiser is `formatSearchKeyword` for every input |
| FilesApi.MethodChecked | api/files.js:31-33 | any method but GET gets 405 with no upstream call |
| FilesApi.EmptySearchShortCircuit | api/files.js:39-47 | a search that sanitises to nothing gets the empty page after the token call, with no `files.list` call |
| FilesApi.SearchQueryShape | api/files.js:49-52 | a non-empty search makes one `files.list` call whose `q` AND-joins one clause per word in order |
| FilesApi.ListingQueryShape | api/files.js:70-71 | without a search, the `q` lists the children of `path`, excluding trashed items, `.password` and the native document types |
| FilesApi.ListParameters | api/files.js:51-79 | every `files.list` call has the fixed order, 100 per page, all drives, and the page token exactly when truthy |
| FilesApi.ErrorsAndPages | api/files.js:62-91 | every upstream failure gets 500 'Failed to fetch files'; a success forwards Drive's page as it is |
| StreamApi.PlanOfValues | api/stream.js:82-85 | the two parsed pieces of a range give the start, the end and `end - start + 1` |
| StreamApi.ClosedRange | api/stream.js:82-85 | `bytes=S-E` plans `S`, `E` and `E - S + 1` |
| StreamApi.OpenRange | api/stream.js:84 | `bytes=S-` on a file of `n` bytes ends at `n - 1` |
| StreamApi.OpenRangeWithoutSize | api/stream.js:84 | `bytes=S-` without a size gives a NaN end and chunk size |
| StreamApi.SuffixRange | api/stream.js:82-85 | a suffix range `bytes=-N` gives a NaN start and chunk size, and `N` as the end |
| StreamApi.HandleStream | api/stream.js:22-120 | the handler writes the reply and makes the upstream calls that `StreamOutcome` gives |
| StreamApi.WriteStreamHeaders | api/stream.js:66-90 | the streaming branch sets exactly the headers `StreamHeaders` gives, and status 206 exactly when there is a range |
| StreamApi.StreamFile | api/stream.js:66-110 | the streaming branch writes the reply and makes the calls that `StreamingOutcome` gives |
| StreamApi.RejectedEarly | api/stream.js:23-30 | 405 'Method not allowed' for a method other than GET, 400 'File ID is required' without a truthy `fileId`; no header and no upstream call |
| StreamApi.DirectLinkAnswer | api/stream.js:47-63 | `directLink=true` grants reader access to anyone and answers with the metadata and the two public URLs, with no content request |
| StreamApi.DispositionChoice | api/stream.js:68-69 | the disposition is `inline` exactly when `inline` is "true", with the percent-encoded name; the type is the file's |
| StreamApi.WholeFile | api/stream.js:70-109 | without a range: status 200, `Content-Length` exactly when the size is known, no `Content-Range`, the whole file requested |
| StreamApi.RangedReply | api/stream.js:80-101 | with a range: 206, the computed `Content-Range`, `Accept-Ranges: bytes`, the chunk size as length, the same bounds sent upstream |
| StreamApi.PartialContent | api/stream.js:80-101 | `bytes=S-E` on a file of `n` bytes gives `bytes S-E/n` and length `E-S+1` |
| StreamApi.FailuresMapped | api/stream.js:111-119 | every failing upstream call gets 404 'File not found' on an upstream 404, else 500 'Failed to stream file' |
| DownloadApi.HandleDownload | api/download.js:22-95 | the handler writes the reply and makes the upstream calls that `DownloadOutcome` gives |
| DownloadApi.StreamInline | api/download.js:66-85 | the stream branch writes the reply and makes the calls that `InlineOutcome` gives |
| DownloadApi.DownloadRejectedEarly | api/download.js:23-30 | 405 'Method not allowed' for a method other than GET, 400 'File ID is required' without a truthy `fileId`; no header and no upstream call |
| DownloadApi.ModeChoice | api/download.js:47-85 | after the metadata, the third call is the reader grant exactly when `directLink` is "true" or `inline` is falsy, and the content request otherwise |
| DownloadApi.DirectLinks | api/download.js:49-63 | in direct-link mode the answer holds the metadata and the two public URLs |
| DownloadApi.InlineStream | api/download.js:66-85 | the stream is always inline under the encoded name, with `Content-Length` exactly when the size is known, CORS, status 200 |
| DownloadApi.DownloadFailuresMapped | api/download.js:86-94 | every failing upstream call gets 404 'File not found' on an upstream 404, else 500 'Failed to process file' |
| DownloadAspx.AspxFail | api/download.aspx.js:82-96 | the catch block sends the 404 HTML page for an upstream 404 and 500 JSON otherwise |
| DownloadAspx.HandleAspx | api/download.aspx.js:23-97 | the handler writes the reply and makes the upstream calls that `AspxOutcome` gives |
| DownloadAspx.AnyMethod | api/download.aspx.js:23-30 | the outcome does not depend on the HTTP method |
| DownloadAspx.MissingId | api/download.aspx.js:26-30 | without a truthy `id`: 400, no upstream call |
| DownloadAspx.MissingName | api/download.aspx.js:47-49 | metadata without a name gets 500 "Unable to find this file. Try again." before any header and before the content request |
| DownloadAspx.UnsafeNameFails | api/download.aspx.js:55-95 | a name `setHeader` refuses makes the first header throw: 500 'Failed to download file', no header, and no content request |
| DownloadAspx.WideNameRefused | api/download.aspx.js:55 | a name holding a Chinese character is refused |
| DownloadAspx.NamedFileHeaders | api/download.aspx.js:52-70 | for a name `setHeader` accepts: the disposition is `inline` exactly when `inline` is "true", with the raw name; `Content-Length` exactly when the size is known; CORS exactly when enabled; the Range header forwarded verbatim exactly when truthy |
| DownloadAspx.AspxFailuresMapped | api/download.aspx.js:82-96 | an upstream 404 gets the HTML page, any other failure 500 'Failed to download file' (for a content failure, once the name was accepted as a header) |
| DownloadAspx.StreamBreaks | api/download.aspx.js:73-78 | for a name `setHeader` accepts, a stream that fails before sending data gets 500 'Streaming failed' |
| SearchContext.BlankSearchClears | src/contexts/SearchContext.jsx:19-23 | a blank query makes no call, clears the results and the token, and changes nothing else |
| SearchContext.SearchSucceeds | src/contexts/SearchContext.jsx:25-36 | a success keeps the old results exactly when the page token is truthy, appends the answer's files, takes its token, clears the error and ends loading |
| SearchContext.SearchFails | src/contexts/SearchContext.jsx:37-43 | a failure empties the results, sets the fixed message, ends loading and keeps the token |
| SearchContext.ClearResets | src/contexts/SearchContext.jsx:58-62 | clearing resets everything but `loading` and leaves nothing to load |
| SearchContext.NoTokenNoMore | src/contexts/SearchContext.jsx:68-72 | without a token, any number of `loadMore` calls changes nothing |
| SearchContext.LoadMoreAppends | src/contexts/SearchContext.jsx:68-72 | with a token, one further page goes after the results |
| SearchContext.LoadPagesAppend | src/contexts/SearchContext.jsx:68-72 | pages loaded one after another pile up in order behind the results, and the token is the last page's |
| SearchContext.SearchProvider.constructor | src/contexts/SearchContext.jsx:11-16 | the provider starts with an empty query and results, not loading, no error, no token |
| SearchContext.SearchProvider.SetSearchQuery | src/contexts/SearchContext.jsx:11 | sets the query and nothing else |
| SearchContext.SearchProvider.HandleSearch | src/contexts/SearchContext.jsx:18-44 | the service is called exactly when the query is not blank, and the new state is `SearchStep`'s |
| SearchContext.SearchProvider.OnChange | src/contexts/SearchContext.jsx:46-50 | a search runs exactly on the search page with a non-blank query |
| SearchContext.SearchProvider.PerformSearch | src/contexts/SearchContext.jsx:52-56 | navigates exactly when the trimmed query is non-empty, to `/search?q=` followed by the encoded trimmed query |
| SearchContext.SearchProvider.ClearSearch | src/contexts/SearchContext.jsx:58-66 | resets the state and goes to "/" exactly when on the search page |
| SearchContext.SearchProvider.LoadMore | src/contexts/SearchContext.jsx:68-72 | calls the service exactly when there is a truthy token and a non-blank query, and appends the page |
| SearchContext.SearchProvider.HasMoreResults | src/contexts/SearchContext.jsx:80 | `hasMore` holds exactly when the token is present and non-empty |
| SearchPage.Mounted | src/pages/Search.jsx:10-13 | the page starts with the `q` parameter as its query ("" when it is missing or empty), no results, no token |
| SearchPage.PageBlankSearch | src/pages/Search.jsx:16 | a blank query makes no call and changes nothing |
| SearchPage.PageSearchSucceeds | src/pages/Search.jsx:15-28 | a success asks for the page's query, keeps the old results exactly when the token is truthy, appends the answer's files and takes its token |
| SearchPage.PageSearchFails | src/pages/Search.jsx:29-33 | a failure keeps the results and the token, and only loading ends |
| SearchPage.TitleCases | src/pages/Search.jsx:49-54 | no title without a query; "Searching..." while loading; otherwise a sentence ending in the quoted query that starts with "No results" exactly when there are none |
| SearchPage.StaleQuerySearched | src/pages/Search.jsx:36-42 | as written, a new `q` is shown but the search asks for the previous query, or for nothing |
| SearchPage.EffectSearchesShownQuery | src/pages/Search.jsx:36-42 | as intended, a new non-blank `q` is the query searched for and shown, and its first page replaces the results |
| SearchPage.SearchResults.constructor | src/pages/Search.jsx:10-13 | the page's fields start as `Mounted` gives |
| SearchPage.SearchResults.HandleSearch | src/pages/Search.jsx:15-34 | asks for the page's query exactly when it is not blank, and the new state is `PageSearch`'s |
| SearchPage.SearchResults.OnSearchParams | src/pages/Search.jsx:36-42 | the corrected effect: sets the query from a truthy `q`, then searches for it |
| SearchPage.SearchResults.LoadMore | src/pages/Search.jsx:68 | searches again with the page's token, even when there is none |
| SearchPage.SearchResults.Title | src/pages/Search.jsx:49-54 | no title exactly when the query is empty; when not loading, the title ends with the quoted query |
| SearchPage.SearchResults.HasMore | src/pages/Search.jsx:67 | `hasMore` holds exactly when the token is present and non-empty |
| BreadcrumbNav.BreadcrumbItems | src/components/BreadcrumbNav.jsx:74-86 | the bar renders exactly when "Home" and every segment decode, with one link for "Home" and one per segment; otherwise the render throws |
| BreadcrumbNav.MalformedSegmentThrows | src/components/BreadcrumbNav.jsx:74-76 | one segment that fails to decode makes the whole render throw |
| BreadcrumbNav.HomeFirst | src/components/BreadcrumbNav.jsx:81 | the first link is "Home" to "/", highlighted only on the home page |
| BreadcrumbNav.CrumbAt | src/components/BreadcrumbNav.jsx:63-85 | link `k` goes to "/" and the first `k` segments joined with "/", shows the decoded segment, is cut short exactly when the segment is longer than 30, and is highlighted exactly when it is the last |
| BreadcrumbNav.PathsExtend | src/components/BreadcrumbNav.jsx:82-85 | each link's path is the previous link's with the next segment added |
| BreadcrumbNav.CrumbResolves | src/components/BreadcrumbNav.jsx:82-85 | following link `k` leads back to exactly the first `k` segments |
| BreadcrumbNav.LastCrumbIsHere | src/components/BreadcrumbNav.jsx:80-86 | the last link of a path's bar leads to the same folder as the path |
| BreadcrumbNav.ScrollAmount | src/components/BreadcrumbNav.jsx:37 | -150 exactly for "left", 150 for anything else |
| BreadcrumbNav.ArrowsAtEdges | src/components/BreadcrumbNav.jsx:15-16 | within 5 pixels of an edge the arrow past that edge is hidden; farther from both, both show |
| BreadcrumbNav.ScrollBack | src/components/BreadcrumbNav.jsx:35-40 | a right press then a left press return to the start position when there is room to the right |
| BreadcrumbNav.EndHidesRightArrow | src/components/BreadcrumbNav.jsx:20-27 | after the jump to the right end, the right arrow is hidden, and the left one shows exactly when the bar overflows by more than 5 pixels |
| BreadcrumbNav.ScrollArea.ScrollBy | src/components/BreadcrumbNav.jsx:38 | `scrollBy({ left: amount })` moves the bar by `amount`, kept between 0 and the largest position |
| BreadcrumbNav.ScrollArea.ScrollToEnd | src/components/BreadcrumbNav.jsx:24 | `scrollLeft = scrollWidth` leaves the bar at its right end |
| BreadcrumbNav.ScrollArrows.constructor | src/components/BreadcrumbNav.jsx:9-10 | both arrows start hidden |
| BreadcrumbNav.ScrollArrows.CheckScroll | src/components/BreadcrumbNav.jsx:12-18 | nothing changes without the element; otherwise the flags become `ShowLeft` and `ShowRight` of its metrics |
| BreadcrumbNav.HandleScroll | src/components/BreadcrumbNav.jsx:35-40 | one step of -150 or 150, if the element exists |

## Left out

- Network calls (the OAuth token endpoint, Drive metadata, `files.list`, permissions, content) are parameters standing for their answers. Streaming itself is a `Piped` body naming the file and the range.
- `api/auth.js`, `src/utils/crypto.js`, the configuration module and the pages other than search (home, folder, file preview, layout) are not part of this model.
- Time is a `now` parameter read once per call. Debouncing, `setTimeout`, resize listeners, smooth scrolling and React's render scheduling are not modelled: each callback runs to completion with the state it sees.
- Concurrency is not modelled: two requests sharing the service's token cache, or overlapping searches, are not covered.
- `encodeURIComponent` and `decodeURIComponent` are oracle parameters. A decode that throws is `None`. `findPathId` catches it; the breadcrumb render does not, so there the whole bar is `None`. Percent-encoding itself is not modelled.
- Drive's `size` is a decimal string in JSON; the model keeps it as an optional natural number and writes it back with `String`.
- JavaScript numbers are unbounded integers or NaN. Numbers above 2^53 and fractional scroll positions are not modelled.
- The `fields` selectors and `supportsAllDrives` flags of the Drive requests are not kept in `ListRequest`.
- The headers `res.json` sets itself, and logging through `console.error`, are not modelled.
- A stream failing in the middle of the body is not modelled. The one exception is `/api/download.aspx`, which has an explicit handler for a stream that fails before sending data.
- The token obtained by `GoogleDrive.FindPathId` and `GoogleDrive.FindPathById` for each lookup is not threaded through the token cache: folder lookups and metadata reads are pure oracles.
- Quotes and other characters in folder names and ids are interpolated into the Drive queries as they are; the model builds the same strings and does not model how Drive reads them.
- The `paths` and `files` caches that the `GoogleDrive` constructor creates are never read by the core and are not modelled.
- String lengths count Unicode scalar values. JavaScript counts UTF-16 code units, which differ only for characters outside the Basic Multilingual Plane (the 30-character cut of the breadcrumb).
- Http.ServerResponse.SetHeader: does not check the value. It is used for percent-encoded names, Drive's MIME types, decimal sizes and fixed strings, all taken to be printable ASCII. Only the raw name of `/api/download.aspx` goes through `CheckedSetHeader`.
- BreadcrumbNav.ScrollArea.ScrollBy: the browser's clamping of `scrollLeft` to `[0, scrollWidth - clientWidth]` is assumed, not taken from the source.
- DriveService.GoogleDrive.FindPathById: termination assumes first parents lead up to a parentless item (the `rank` parameter); a cycle in Drive's parent links would make the source loop forever.

## Findings

| source | as written | input that shows it | evidently intended | confidence | as-written member | corrected member |
|---|---|---|---|---|---|---|
| src/pages/Search.jsx:36-42 | the effect calls `setQuery(q)` and then `handleSearch()`, which was created in the same render and still sees the previous `query` | the page shows `?q=a`, and the URL changes to `?q=b`: the title says "b" while the search asks for "a", and for nothing when the previous query was blank | the search runs for the new `q` shown in the title | not executed; medium | SearchPage.ParamsEffectAsWritten, SearchPage.StaleQuerySearched | SearchPage.ParamsEffect, SearchPage.EffectSearchesShownQuery |
