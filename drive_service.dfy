/** The Drive service object of the web front-end: an access-token cache,
    the resolver from a virtual path to a folder id, the reverse walk from a
    file to its path, folder listing, and name search with its keyword
    sanitiser. Every call to Google's OAuth endpoint or to the Drive API is a
    parameter: the value that call resolves to, or a function from the
    request to it. */
module DriveService {
  import opened Wrappers
  import opened Text
  import opened DriveModel

  /* ---------------------------------------------------------------------
     Access-token cache
     --------------------------------------------------------------------- */

  /** Tokens are kept for 3500 s, less than their one-hour lifetime. */
  const TOKEN_LIFETIME_MS := 3500 * 1000

  datatype TokenCache = TokenCache(accessToken: Option<string>, tokenExpiry: Option<nat>)

  /** The guard that serves the cached token: a truthy token, a truthy expiry,
      and a clock before the expiry. */
  predicate ServesCached(c: TokenCache, now: nat) {
    Truthy(c.accessToken) && c.tokenExpiry.Some? && c.tokenExpiry.value != 0
    && now < c.tokenExpiry.value
  }

  /** What one call leaves behind: the cache, whether the token endpoint was
      called, and what the call resolves or rejects with. */
  datatype TokenAnswer = TokenAnswer(cache: TokenCache, refreshed: bool, token: Result<string, UpstreamError>)

  /** One call of the token provider at time `now`; `grant` is what the
      refresh-token grant (section 6 of RFC 6749) answers when it is made. */
  function AccessTokenStep(c: TokenCache, now: nat, grant: Result<string, UpstreamError>): TokenAnswer {
    if ServesCached(c, now) then TokenAnswer(c, false, Success(c.accessToken.value))
    else match grant
      case Failure(e) => TokenAnswer(c, true, Failure(e))
      case Success(t) => TokenAnswer(TokenCache(Some(t), Some(now + TOKEN_LIFETIME_MS)), true, Success(t))
  }

  /** A fresh cached token is served without calling the token endpoint,
      whatever that endpoint would answer. */
  lemma CachedTokenServed(c: TokenCache, now: nat, grant: Result<string, UpstreamError>)
    requires ServesCached(c, now)
    ensures var a := AccessTokenStep(c, now, grant);
      !a.refreshed && a.cache == c && a.token == Success(c.accessToken.value)
  {
  }

  /** A refresh that succeeds stores the new token with an expiry 3500 s
      ahead; one that fails rejects with the same error and leaves both
      fields as they were. */
  lemma RefreshOutcome(c: TokenCache, now: nat, grant: Result<string, UpstreamError>)
    requires !ServesCached(c, now)
    ensures var a := AccessTokenStep(c, now, grant);
      && a.refreshed
      && a.token == grant
      && (grant.Success? ==> a.cache == TokenCache(Some(grant.value), Some(now + 3500000)))
      && (grant.Failure? ==> a.cache == c)
  {
  }

  /** After a successful refresh at time `t` with a non-empty token, every
      call before `t + 3500 s` is served from the cache, and the first call
      at or after it refreshes again. */
  lemma RefreshedTokenLifetime(c: TokenCache, t: nat, grant: Result<string, UpstreamError>,
                               later: nat, grant2: Result<string, UpstreamError>)
    requires !ServesCached(c, t) && grant.Success? && grant.value != ""
    ensures var first := AccessTokenStep(c, t, grant);
      var second := AccessTokenStep(first.cache, later, grant2);
      (later < t + TOKEN_LIFETIME_MS ==> !second.refreshed && second.token == grant)
      && (later >= t + TOKEN_LIFETIME_MS ==> second.refreshed)
  {
  }

  /* ---------------------------------------------------------------------
     Path resolution: virtual path to folder id
     --------------------------------------------------------------------- */

  /** `path.split('/').filter(Boolean)`: the non-empty segments of a path. */
  function PathSegments(path: string): (r: seq<string>)
    ensures forall i :: 0 <= i < |r| ==> r[i] != "" && '/' !in r[i]
  {
    Compact(SplitOn(path, '/'))
  }

  /** A path written as "/" followed by segments joined with "/" splits back
      into exactly those segments (for no segments, the path "/"). */
  lemma SegmentsOfJoinedPath(segments: seq<string>)
    requires forall i :: 0 <= i < |segments| ==> segments[i] != "" && '/' !in segments[i]
    ensures PathSegments("/" + JoinWith(segments, "/")) == segments
  {
    var joined := JoinWith(segments, "/");
    assert "/" + joined == [] + ['/'] + joined;
    SplitAfterPiece([], '/', joined);
    if segments == [] {
      assert SplitOn("", '/') == [""];
    } else {
      SplitJoin(segments, '/');
    }
    CompactWithoutEmpty(segments);
  }

  /** `decodeURIComponent`: None when it throws on a malformed escape. */
  type Decoder = string -> Option<string>

  /** What `files.list` answers for a query string, as `listFolderContents`
      sees it: the files, or None when the call fails or the answer carries
      no list (that function catches every failure and returns null). */
  type FolderSearch = string -> Option<seq<DriveFile>>

  /** One step of the walk: `part` decodes to a name, and the first folder
      the lookup returns for that name under `from` is `to`. */
  predicate Step(from: string, part: string, to: string, decode: Decoder, lookup: FolderSearch) {
    && decode(part).Some?
    && var found := lookup(ChildFolderQuery(from, decode(part).value));
    && found.Some? && |found.value| > 0 && found.value[0].id == to
  }

  /** `ids` is the sequence of folders visited when walking `parts`. */
  predicate IsWalk(ids: seq<string>, parts: seq<string>, decode: Decoder, lookup: FolderSearch) {
    && |ids| == |parts| + 1
    && forall k :: 0 <= k < |parts| ==> Step(ids[k], parts[k], ids[k + 1], decode, lookup)
  }

  /** The loop of `findPathId`: from `current`, take the first matching child
      folder for each segment in turn; None as soon as a segment fails to
      decode or finds nothing. */
  function WalkFrom(current: string, parts: seq<string>, decode: Decoder, lookup: FolderSearch): Option<string>
    decreases |parts|
  {
    if parts == [] then Some(current)
    else match decode(parts[0])
      case None => None
      case Some(name) =>
        match lookup(ChildFolderQuery(current, name))
        case None => None
        case Some(found) =>
          if |found| == 0 then None else WalkFrom(found[0].id, parts[1..], decode, lookup)
  }

  /** `findPathId(path)`: the root id for "/", otherwise the walk from the
      root over the path's non-empty segments. */
  function ResolvePath(rootId: string, path: string, decode: Decoder, lookup: FolderSearch): Option<string> {
    if path == "/" then Some(rootId) else WalkFrom(rootId, PathSegments(path), decode, lookup)
  }

  /** A path without non-empty segments ("/", "", "//", ...) resolves to the
      root with no lookup: the answer is the same for every lookup function. */
  lemma RootNeedsNoLookup(rootId: string, path: string, decode: Decoder, lookup: FolderSearch)
    requires PathSegments(path) == []
    ensures ResolvePath(rootId, path, decode, lookup) == Some(rootId)
  {
  }

  /** Walking `a + b` is walking `a`, then walking `b` from where `a` ended. */
  lemma {:induction false} WalkAppend(current: string, a: seq<string>, b: seq<string>, decode: Decoder, lookup: FolderSearch)
    ensures WalkFrom(current, a + b, decode, lookup)
         == match WalkFrom(current, a, decode, lookup)
            case None => None
            case Some(mid) => WalkFrom(mid, b, decode, lookup)
    decreases |a|
  {
    if a != [] {
      assert (a + b)[0] == a[0] && (a + b)[1..] == a[1..] + b;
      var name := decode(a[0]);
      if name.Some? {
        var found := lookup(ChildFolderQuery(current, name.value));
        if found.Some? && |found.value| > 0 {
          WalkAppend(found.value[0].id, a[1..], b, decode, lookup);
        }
      }
    } else {
      assert a + b == b;
    }
  }

  /** Once the walk has reached `mid`, a segment that does not decode or
      finds no folder under `mid` makes the whole resolution fail, whatever
      follows. */
  lemma MissingSegmentFails(current: string, a: seq<string>, part: string, rest: seq<string>,
                            mid: string, decode: Decoder, lookup: FolderSearch)
    requires WalkFrom(current, a, decode, lookup) == Some(mid)
    requires decode(part).None?
          || lookup(ChildFolderQuery(mid, decode(part).value)).None?
          || lookup(ChildFolderQuery(mid, decode(part).value)).value == []
    ensures WalkFrom(current, a + [part] + rest, decode, lookup) == None
  {
    WalkAppend(current, a, [part] + rest, decode, lookup);
    assert a + [part] + rest == a + ([part] + rest);
  }

  /** The walk ends where a chain of first matches leads (the tree walked by
      hand): if `ids` is such a chain for `parts`, the walk from its start
      returns its end. */
  lemma {:induction false} WalkFollowsChain(ids: seq<string>, parts: seq<string>, decode: Decoder, lookup: FolderSearch)
    requires IsWalk(ids, parts, decode, lookup)
    ensures WalkFrom(ids[0], parts, decode, lookup) == Some(ids[|parts|])
    decreases |parts|
  {
    if parts != [] {
      assert Step(ids[0], parts[0], ids[1], decode, lookup);
      assert IsWalk(ids[1..], parts[1..], decode, lookup) by {
        forall k | 0 <= k < |parts| - 1
          ensures Step(ids[1..][k], parts[1..][k], ids[1..][k + 1], decode, lookup)
        {
          assert Step(ids[k + 1], parts[k + 1], ids[k + 2], decode, lookup);
        }
      }
      WalkFollowsChain(ids[1..], parts[1..], decode, lookup);
    }
  }

  /** Conversely, a walk that succeeds went along such a chain. */
  lemma {:induction false} WalkHasChain(current: string, parts: seq<string>, decode: Decoder, lookup: FolderSearch)
    returns (ids: seq<string>)
    requires WalkFrom(current, parts, decode, lookup).Some?
    ensures IsWalk(ids, parts, decode, lookup)
    ensures ids[0] == current && ids[|parts|] == WalkFrom(current, parts, decode, lookup).value
    decreases |parts|
  {
    if parts == [] {
      ids := [current];
    } else {
      var name := decode(parts[0]).value;
      var next := lookup(ChildFolderQuery(current, name)).value[0].id;
      var tail := WalkHasChain(next, parts[1..], decode, lookup);
      ids := [current] + tail;
      forall k | 0 <= k < |parts| ensures Step(ids[k], parts[k], ids[k + 1], decode, lookup) {
        if k > 0 {
          assert Step(tail[k - 1], parts[1..][k - 1], tail[k], decode, lookup);
        }
      }
    }
  }

  /* ---------------------------------------------------------------------
     Listing
     --------------------------------------------------------------------- */

  /** A listed file with its download link (null for folders). */
  datatype LinkedFile = LinkedFile(file: DriveFile, link: Option<string>)

  /** What `listFiles` resolves to. */
  datatype Listing = Listing(files: seq<LinkedFile>, nextPageToken: Option<string>)

  /** `{...file, link}`: the content URL for anything but a folder. */
  function WithLink(f: DriveFile): LinkedFile {
    LinkedFile(f, if f.mimeType != FOLDER_TYPE then Some(ContentUrl(f.id)) else None)
  }

  /** `files.map(...)`: the upstream files in their order, each with its link. */
  function WithLinks(files: seq<DriveFile>): (r: seq<LinkedFile>)
    ensures |r| == |files|
    ensures forall i :: 0 <= i < |r| ==> r[i] == WithLink(files[i])
  {
    if files == [] then [] else [WithLink(files[0])] + WithLinks(files[1..])
  }

  /** Every upstream file is kept, in order, and has a link exactly when it is
      not a folder; the link is `BASE_URL/files/<id>?alt=media`. */
  lemma LinksForFilesOnly(files: seq<DriveFile>)
    ensures var r := WithLinks(files);
      && |r| == |files|
      && forall i :: 0 <= i < |r| ==>
           && r[i].file == files[i]
           && (r[i].link.Some? <==> files[i].mimeType != FOLDER_TYPE)
           && (r[i].link.Some? ==> r[i].link.value == BASE_URL + "/files/" + files[i].id + "?alt=media")
  {
  }

  /** The `files.list` request of `listFiles` for a resolved folder. */
  function FolderListRequest(folderId: string, pageToken: Option<string>, pageSize: int, allDrives: bool): ListRequest {
    ListRequest(ListingQuery(folderId), ORDER_BY, pageSize, if allDrives then "allDrives" else "user",
                true, IfTruthy(pageToken))
  }

  /* ---------------------------------------------------------------------
     Search
     --------------------------------------------------------------------- */

  /** Characters the first `replace` deletes one at a time: ' " = < > / \ : */
  predicate IsStripped(c: char) {
    c == '\'' || c == '"' || c == '=' || c == '<' || c == '>' || c == '/' || c == '\\' || c == ':'
  }

  /** Characters the second `replace` turns into a space: , ， | ( ) { } */
  predicate IsSeparator(c: char) {
    c == ',' || c == '\U{FF0C}' || c == '|' || c == '(' || c == ')' || c == '{' || c == '}'
  }

  /** `s.replace(/(!=)|['"=<>/\\:]/g, '')`. The regular expression tries the
      pair "!=" before the single characters at each position, so "!=" goes
      as a whole and a `!` not followed by `=` stays. */
  function StripOperators(s: string): (r: string)
    ensures forall i :: 0 <= i < |r| ==> !IsStripped(r[i])
  {
    if s == [] then []
    else if |s| >= 2 && s[0] == '!' && s[1] == '=' then StripOperators(s[2..])
    else if IsStripped(s[0]) then StripOperators(s[1..])
    else [s[0]] + StripOperators(s[1..])
  }

  /** `s.replace(/[,，|(){}]/g, ' ')`. */
  function SpaceOutSeparators(s: string): string {
    seq(|s|, i requires 0 <= i < |s| => if IsSeparator(s[i]) then ' ' else s[i])
  }

  /** `formatSearchKeyword`: '' for a falsy keyword, otherwise the two
      replacements followed by `trim`. */
  function FormatSearchKeyword(keyword: string): (r: string)
    ensures Clean(r)
    ensures NoSpaceAtEnds(r)
  {
    if keyword == "" then ""
    else
      var spaced := SpaceOutSeparators(StripOperators(keyword));
      CleanTrim(spaced);
      Trim(spaced)
  }

  /** Neither a character to strip nor a separator occurs in `s`. */
  predicate Clean(s: string) {
    forall i :: 0 <= i < |s| ==> !IsStripped(s[i]) && !IsSeparator(s[i])
  }

  /** Trimming a clean string leaves it clean. */
  lemma CleanTrim(s: string)
    requires Clean(s)
    ensures Clean(Trim(s))
  {
    var a, r := TrimOffset(s), Trim(s);
    CleanSlice(s, a, a + |r|);
  }

  /** Every slice of a clean string is clean. */
  lemma CleanSlice(s: string, lo: nat, hi: nat)
    requires Clean(s) && lo <= hi <= |s|
    ensures Clean(s[lo..hi])
  {
    forall i | 0 <= i < hi - lo ensures !IsStripped(s[lo..hi][i]) && !IsSeparator(s[lo..hi][i]) {
      assert s[lo..hi][i] == s[lo + i];
    }
  }

  /** How many `!` of `s` are not immediately followed by `=`. */
  function KeptBangs(s: string): nat {
    if s == [] then 0
    else (if s[0] == '!' && !(|s| >= 2 && s[1] == '=') then 1 else 0) + KeptBangs(s[1..])
  }

  /** Stripping keeps every other character and every `!` that is not
      followed by `=`. */
  lemma {:induction false} StripKeeps(s: string, c: char)
    requires !IsStripped(c)
    ensures multiset(StripOperators(s))[c] == if c == '!' then KeptBangs(s) else multiset(s)[c]
  {
    if s == [] {
    } else if |s| >= 2 && s[0] == '!' && s[1] == '=' {
      StripKeeps(s[2..], c);
      assert s == [s[0]] + s[1..] && s[1..] == [s[1]] + s[2..];
      assert s[1..][1..] == s[2..];
      CountCons(s[0], s[1..], c);
      CountCons(s[1], s[2..], c);
    } else {
      StripKeeps(s[1..], c);
      assert s == [s[0]] + s[1..];
      CountCons(s[0], s[1..], c);
      if !IsStripped(s[0]) {
        CountCons(s[0], StripOperators(s[1..]), c);
      }
    }
  }

  /** How often `c` occurs in a string with one more character in front. */
  lemma CountCons(x: char, rest: string, c: char)
    ensures multiset([x] + rest)[c] == (if x == c then 1 else 0) + multiset(rest)[c]
  {
    assert multiset([x] + rest) == multiset([x]) + multiset(rest);
  }

  /** Turning separators into spaces keeps every other character. */
  lemma {:induction false} SpaceOutKeeps(s: string, c: char)
    requires !IsSeparator(c) && c != ' '
    ensures multiset(SpaceOutSeparators(s))[c] == multiset(s)[c]
    decreases |s|
  {
    if s != [] {
      SpaceOutKeeps(s[1..], c);
      assert s == [s[0]] + s[1..];
      assert SpaceOutSeparators(s) == [SpaceOutSeparators(s)[0]] + SpaceOutSeparators(s[1..]);
    }
  }

  /** The sanitiser keeps every character that it neither strips, nor turns
      into a space, nor trims, as often as it occurs; of the `!`, it keeps
      exactly those not followed by `=`. */
  lemma FormatKeeps(keyword: string, c: char)
    requires !IsStripped(c) && !IsSeparator(c) && !IsSpace(c)
    ensures multiset(FormatSearchKeyword(keyword))[c] == if c == '!' then KeptBangs(keyword) else multiset(keyword)[c]
  {
    if keyword != "" {
      var stripped := StripOperators(keyword);
      StripKeeps(keyword, c);
      SpaceOutKeeps(stripped, c);
      TrimKeepsText(SpaceOutSeparators(stripped), c);
    }
  }

  /** Stripping a string with no character to strip changes nothing. */
  lemma {:induction false} StripNothing(s: string)
    requires forall i :: 0 <= i < |s| ==> !IsStripped(s[i])
    ensures StripOperators(s) == s
  {
    if s != [] {
      StripNothing(s[1..]);
      assert s == [s[0]] + s[1..];
    }
  }

  /** Sanitising twice is sanitising once. */
  lemma FormatIdempotent(keyword: string)
    ensures FormatSearchKeyword(FormatSearchKeyword(keyword)) == FormatSearchKeyword(keyword)
  {
    var once := FormatSearchKeyword(keyword);
    if once != "" {
      StripNothing(once);
      assert SpaceOutSeparators(once) == once;
      TrimmedIsFixed(once);
    }
  }

  /** The `files.list` request of `searchFiles`, or None when the sanitised
      query is empty and no request is made. */
  function SearchRequest(query: string, pageToken: Option<string>, pageSize: int, allDrives: bool): Option<ListRequest> {
    var formatted := FormatSearchKeyword(query);
    if formatted == "" then None
    else Some(ListRequest(SearchQuery(SplitWords(formatted)), ORDER_BY, pageSize,
                          if allDrives then "allDrives" else "user", allDrives, IfTruthy(pageToken)))
  }

  /** A search request is made exactly when the sanitised query is not empty.
      Its `q` holds one `name contains` clause per word of the sanitised
      query, AND-joined in order; the words are non-empty, hold no white
      space and no quote, and together are all the non-space characters of
      the sanitised query. */
  lemma SearchRequestShape(query: string, pageToken: Option<string>, pageSize: int, allDrives: bool)
    ensures SearchRequest(query, pageToken, pageSize, allDrives).None? <==> FormatSearchKeyword(query) == ""
    ensures SearchRequest(query, pageToken, pageSize, allDrives).Some? ==>
      var formatted := FormatSearchKeyword(query);
      var words := SplitWords(formatted);
      && SearchRequest(query, pageToken, pageSize, allDrives).value.q
           == "trashed = false AND " + NATIVE_TYPES_EXCLUDED + " AND name !='.password' AND ("
              + JoinWith(NameClauses(words), " AND ") + ")"
      && (forall i :: 0 <= i < |words| ==> words[i] != "" && NoSpace(words[i]) && '\'' !in words[i])
      && Concat(words) == RemoveSpaces(formatted)
  {
    var formatted := FormatSearchKeyword(query);
    if formatted != "" {
      var words := SplitWords(formatted);
      WordsOfTrimmed(formatted);
      NameSearchIsConjunction(words);
      WordsCoverText(formatted);
      forall i | 0 <= i < |words| ensures '\'' !in words[i] {
        QuoteFreeWords(formatted, i);
      }
    }
  }

  /** A word of a string without quotes has no quote. */
  lemma QuoteFreeWords(s: string, i: nat)
    requires '\'' !in s && i < |SplitWords(s)|
    ensures '\'' !in SplitWords(s)[i]
  {
    WordsCoverText(s);
    RemoveSpacesKeepsOut(s, '\'');
    ConcatHasNo(SplitWords(s), '\'', i);
  }

  /** Removing white space adds no character. */
  lemma {:induction false} RemoveSpacesKeepsOut(s: string, c: char)
    requires c !in s
    ensures c !in RemoveSpaces(s)
  {
    if s != [] {
      RemoveSpacesKeepsOut(s[1..], c);
    }
  }

  /** A character absent from a concatenation is absent from each piece. */
  lemma {:induction false} ConcatHasNo(parts: seq<string>, c: char, i: nat)
    requires c !in Concat(parts) && i < |parts|
    ensures c !in parts[i]
  {
    if i > 0 {
      ConcatHasNo(parts[1..], c, i - 1);
    }
  }

  /** What `searchFiles` resolves to. */
  datatype SearchResponse = SearchResponse(nextPageToken: Option<string>, files: seq<DriveFile>)

  /* ---------------------------------------------------------------------
     Reverse walk: file id to path
     --------------------------------------------------------------------- */

  /** `getFileMetadata(id)`: the resource, or the error it rejects with. */
  type MetadataLookup = string -> Result<DriveFile, UpstreamError>

  /** The tree has no cycle along first parents: the first parent of every
      item ranks strictly lower. */
  ghost predicate ParentsDescend(meta: MetadataLookup, rank: string -> nat) {
    forall id :: meta(id).Success? && meta(id).value.parents != [] ==>
      rank(meta(id).value.parents[0]) < rank(id)
  }

  /** The items from the parentless top down to `id`'s own, following first
      parents; the first rejection of a metadata call when there is one. */
  ghost function AncestorChain(id: string, meta: MetadataLookup, rank: string -> nat): Result<seq<DriveFile>, UpstreamError>
    requires ParentsDescend(meta, rank)
    decreases rank(id)
  {
    match meta(id)
    case Failure(e) => Failure(e)
    case Success(f) =>
      if f.parents == [] then Success([f])
      else match AncestorChain(f.parents[0], meta, rank)
        case Failure(e) => Failure(e)
        case Success(above) => Success(above + [f])
  }

  /** A chain found is non-empty, ends with the item asked for, starts with a
      parentless item, and each item after the first has the one before it
      as its first parent's metadata. */
  lemma {:induction false} ChainFollowsParents(id: string, meta: MetadataLookup, rank: string -> nat)
    requires ParentsDescend(meta, rank)
    requires AncestorChain(id, meta, rank).Success?
    ensures var chain := AncestorChain(id, meta, rank).value;
      && chain != []
      && meta(id) == Success(chain[|chain| - 1])
      && chain[0].parents == []
      && LinkedByParents(chain, meta)
    decreases rank(id)
  {
    var f := meta(id).value;
    if f.parents != [] {
      ChainFollowsParents(f.parents[0], meta, rank);
    }
  }

  /** Each item after the first has, as the metadata of its first parent, the
      item before it. */
  predicate LinkedByParents(chain: seq<DriveFile>, meta: MetadataLookup) {
    forall k :: 1 <= k < |chain| ==>
      chain[k].parents != [] && meta(chain[k].parents[0]) == Success(chain[k - 1])
  }

  /** The chain with the first `done` items (a completed tail) appended. */
  function Prepended(chain: Result<seq<DriveFile>, UpstreamError>, done: seq<DriveFile>): Result<seq<DriveFile>, UpstreamError> {
    match chain
    case Failure(e) => Failure(e)
    case Success(c) => Success(c + done)
  }

  /** The encoded names of a chain of items. */
  function EncodedNames(chain: seq<DriveFile>, encode: string -> string): (r: seq<string>)
    ensures |r| == |chain|
    ensures forall i :: 0 <= i < |r| ==> r[i] == encode(chain[i].name)
  {
    if chain == [] then [] else [encode(chain[0].name)] + EncodedNames(chain[1..], encode)
  }

  /** `path ? '/' + path : '/'` with `path` the encoded names joined by "/". */
  function ChainPath(chain: seq<DriveFile>, encode: string -> string): string {
    var p := JoinWith(EncodedNames(chain, encode), "/");
    if p == "" then "/" else "/" + p
  }

  /** The path starts with "/" and, when every encoded name is non-empty and
      free of "/" (as `encodeURIComponent` makes them), splits back into one
      segment per item of the chain, top first. */
  lemma ChainPathSegments(chain: seq<DriveFile>, encode: string -> string)
    requires forall i :: 0 <= i < |chain| ==> encode(chain[i].name) != "" && '/' !in encode(chain[i].name)
    ensures ChainPath(chain, encode)[0] == '/'
    ensures PathSegments(ChainPath(chain, encode)) == EncodedNames(chain, encode)
  {
    var names := EncodedNames(chain, encode);
    SegmentsOfJoinedPath(names);
    if JoinWith(names, "/") == "" {
      assert PathSegments("/") == PathSegments("/" + "");
    }
  }

  /* ---------------------------------------------------------------------
     The service object
     --------------------------------------------------------------------- */

  /** The `GoogleDrive` object: configuration and the token cache it updates. */
  class GoogleDrive {
    /** `config.roots[0].id` */
    const rootId: string
    /** `config.files_list_page_size` */
    const filesPageSize: int
    /** `config.search_result_list_page_size` */
    const searchPageSize: int
    /** `config.search_all_drives` */
    const searchAllDrives: bool

    var accessToken: Option<string>
    var tokenExpiry: Option<nat>

    function Cache(): TokenCache
      reads this
    {
      TokenCache(accessToken, tokenExpiry)
    }

    constructor (rootId: string, filesPageSize: int, searchPageSize: int, searchAllDrives: bool)
      ensures this.rootId == rootId && this.filesPageSize == filesPageSize
      ensures this.searchPageSize == searchPageSize && this.searchAllDrives == searchAllDrives
      ensures accessToken == None && tokenExpiry == None
    {
      this.rootId := rootId;
      this.filesPageSize := filesPageSize;
      this.searchPageSize := searchPageSize;
      this.searchAllDrives := searchAllDrives;
      accessToken := None;
      tokenExpiry := None;
    }

    /** `getAccessToken()` at time `now`; `grant` is the token endpoint's
        answer if it is asked. `refreshed` tells whether it was asked. */
    method GetAccessToken(now: nat, grant: Result<string, UpstreamError>)
      returns (refreshed: bool, token: Result<string, UpstreamError>)
      modifies this
      ensures ServesCached(old(Cache()), now) ==>
        !refreshed && token == Success(old(accessToken).value) && Cache() == old(Cache())
      ensures !ServesCached(old(Cache()), now) ==> refreshed && token == grant
      ensures !ServesCached(old(Cache()), now) && grant.Success? ==>
        accessToken == Some(grant.value) && tokenExpiry == Some(now + TOKEN_LIFETIME_MS)
      ensures grant.Failure? ==> Cache() == old(Cache())
      ensures TokenAnswer(Cache(), refreshed, token) == AccessTokenStep(old(Cache()), now, grant)
    {
      if Truthy(accessToken) && tokenExpiry.Some? && tokenExpiry.value != 0 && now < tokenExpiry.value {
        return false, Success(accessToken.value);
      }
      refreshed := true;
      match grant {
        case Failure(e) =>
          token := Failure(e);
        case Success(t) =>
          accessToken := Some(t);
          tokenExpiry := Some(now + TOKEN_LIFETIME_MS);
          token := Success(t);
      }
    }

    /** `findPathId(path)`: walks the segments from the root, one folder
        lookup per segment. */
    method FindPathId(path: string, decode: Decoder, lookup: FolderSearch) returns (folderId: Option<string>)
      ensures folderId == ResolvePath(rootId, path, decode, lookup)
    {
      if path == "/" {
        return Some(rootId);
      }
      var parts := PathSegments(path);
      var currentId := rootId;
      for i := 0 to |parts|
        invariant WalkFrom(currentId, parts[i..], decode, lookup) == WalkFrom(rootId, parts, decode, lookup)
      {
        var name := decode(parts[i]);
        if name.None? {
          return None;
        }
        var found := lookup(ChildFolderQuery(currentId, name.value));
        if found.None? || |found.value| == 0 {
          return None;
        }
        currentId := found.value[0].id;
      }
      return Some(currentId);
    }

    /** `listFiles(path, pageToken)`: an unresolved path gives an empty
        listing with no request; otherwise a token is obtained and one
        `files.list` request is made, whose files come back with links. */
    method ListFiles(path: string, pageToken: Option<string>, now: nat, decode: Decoder, lookup: FolderSearch,
                     grant: Result<string, UpstreamError>, list: ListRequest -> Result<Page, UpstreamError>)
      returns (request: Option<ListRequest>, listing: Result<Listing, UpstreamError>)
      modifies this
      ensures var folder := ResolvePath(rootId, path, decode, lookup);
        !Truthy(folder) ==> request == None && listing == Success(Listing([], None)) && Cache() == old(Cache())
      ensures var folder := ResolvePath(rootId, path, decode, lookup);
        var step := AccessTokenStep(old(Cache()), now, grant);
        Truthy(folder) ==>
          && Cache() == step.cache
          && (step.token.Failure? ==> request == None && listing == Failure(step.token.error))
          && (step.token.Success? ==>
                && request == Some(FolderListRequest(folder.value, pageToken, filesPageSize, searchAllDrives))
                && listing == match list(request.value)
                              case Failure(e) => Failure(e)
                              case Success(page) => Success(Listing(WithLinks(page.files), page.nextPageToken)))
    {
      var folderId := FindPathId(path, decode, lookup);
      if !Truthy(folderId) {
        return None, Success(Listing([], None));
      }
      var refreshed, token := GetAccessToken(now, grant);
      if token.Failure? {
        return None, Failure(token.error);
      }
      var req := FolderListRequest(folderId.value, pageToken, filesPageSize, searchAllDrives);
      request := Some(req);
      var answer := list(req);
      match answer {
        case Failure(e) =>
          listing := Failure(e);
        case Success(page) =>
          listing := Success(Listing(WithLinks(page.files), page.nextPageToken));
      }
    }

    /** `searchFiles(query, pageToken)`: an empty sanitised query resolves to
        an empty result with no token request and no search; otherwise a
        token is obtained and one `files.list` request is made. */
    method SearchFiles(query: string, pageToken: Option<string>, now: nat,
                       grant: Result<string, UpstreamError>, list: ListRequest -> Result<Page, UpstreamError>)
      returns (request: Option<ListRequest>, response: Result<SearchResponse, UpstreamError>)
      modifies this
      ensures FormatSearchKeyword(query) == "" ==>
        request == None && response == Success(SearchResponse(None, [])) && Cache() == old(Cache())
      ensures var step := AccessTokenStep(old(Cache()), now, grant);
        FormatSearchKeyword(query) != "" ==>
          && Cache() == step.cache
          && (step.token.Failure? ==> request == None && response == Failure(step.token.error))
          && (step.token.Success? ==>
                && request == SearchRequest(query, pageToken, searchPageSize, searchAllDrives)
                && response == match list(request.value)
                               case Failure(e) => Failure(e)
                               case Success(page) => Success(SearchResponse(page.nextPageToken, page.files)))
    {
      var planned := SearchRequest(query, pageToken, searchPageSize, searchAllDrives);
      if planned.None? {
        return None, Success(SearchResponse(None, []));
      }
      var refreshed, token := GetAccessToken(now, grant);
      if token.Failure? {
        return None, Failure(token.error);
      }
      request := planned;
      var answer := list(planned.value);
      match answer {
        case Failure(e) =>
          response := Failure(e);
        case Success(page) =>
          response := Success(SearchResponse(page.nextPageToken, page.files));
      }
    }

    /** `findPathById(fileId)`: follows first parents up to a parentless item
        and joins the encoded names, top first, into a path. */
    method FindPathById(fileId: string, meta: MetadataLookup, encode: string -> string, ghost rank: string -> nat)
      returns (path: Result<string, UpstreamError>)
      requires ParentsDescend(meta, rank)
      ensures path == match AncestorChain(fileId, meta, rank)
                      case Failure(e) => Failure(e)
                      case Success(chain) => Success(ChainPath(chain, encode))
    {
      var parentFiles: seq<DriveFile> := [];
      var currentId := fileId;
      var answer := meta(currentId);
      if answer.Failure? {
        return Failure(answer.error);
      }
      var current := answer.value;
      if AncestorChain(fileId, meta, rank).Success? {
        assert AncestorChain(fileId, meta, rank).value + [] == AncestorChain(fileId, meta, rank).value;
      }
      while current.parents != []
        invariant meta(currentId) == Success(current)
        invariant Prepended(AncestorChain(currentId, meta, rank), parentFiles) == AncestorChain(fileId, meta, rank)
        decreases rank(currentId)
      {
        ghost var above := AncestorChain(current.parents[0], meta, rank);
        assert AncestorChain(currentId, meta, rank) == Prepended(above, [current]);
        if above.Success? {
          assert above.value + [current] + parentFiles == above.value + ([current] + parentFiles);
        }
        parentFiles := [current] + parentFiles;
        currentId := current.parents[0];
        answer := meta(currentId);
        if answer.Failure? {
          return Failure(answer.error);
        }
        current := answer.value;
      }
      parentFiles := [current] + parentFiles;
      var p := JoinWith(EncodedNames(parentFiles, encode), "/");
      path := Success(if p == "" then "/" else "/" + p);
    }
  }
}
