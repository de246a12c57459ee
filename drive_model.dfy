/** The Google Drive v3 shapes the core reads and writes: file resources, one
    page of a `files.list` answer, the parameters of a `files.list` request,
    upstream failures, and the query strings the core builds. */
module DriveModel {
  import opened Wrappers
  import opened Text

  const BASE_URL := "https://www.googleapis.com/drive/v3"
  const FOLDER_TYPE := "application/vnd.google-apps.folder"
  const SHORTCUT_TYPE := "application/vnd.google-apps.shortcut"
  const DOCUMENT_TYPE := "application/vnd.google-apps.document"
  const SPREADSHEET_TYPE := "application/vnd.google-apps.spreadsheet"
  const FORM_TYPE := "application/vnd.google-apps.form"
  const SITE_TYPE := "application/vnd.google-apps.site"

  /** Folders first, then by name, newest first among equal names. */
  const ORDER_BY := "folder,name,modifiedTime desc"

  /** A file or folder resource; `size` and `modifiedTime` are absent for
      folders, `parents` is empty for a parentless item. */
  datatype DriveFile = DriveFile(
    id: string,
    name: string,
    mimeType: string,
    size: Option<nat>,
    modifiedTime: Option<string>,
    parents: seq<string>)

  /** One page of a `files.list` answer (`response.data`). */
  datatype Page = Page(files: seq<DriveFile>, nextPageToken: Option<string>)

  /** The parameters of a `files.list` request that the core chooses.
      `supportsAllDrives` is always true and the `fields` selector is not kept. */
  datatype ListRequest = ListRequest(
    q: string,
    orderBy: string,
    pageSize: int,
    corpora: string,
    includeItemsFromAllDrives: bool,
    pageToken: Option<string>)

  /** A rejected upstream call; `status` is `error.response?.status`. */
  datatype UpstreamError = UpstreamError(status: Option<int>)

  /** JavaScript truthiness of a possibly missing string: present and non-empty. */
  predicate Truthy(s: Option<string>) {
    s.Some? && s.value != ""
  }

  /** `...(x && { x })`: an optional parameter or header (a page token, a
      Range header) is passed on only when truthy, and then unchanged. */
  function IfTruthy(x: Option<string>): (r: Option<string>)
    ensures r.Some? <==> Truthy(x)
    ensures r.Some? ==> r == x
  {
    if Truthy(x) then x else None
  }

  /** A string interpolated into a template literal: `undefined` when missing. */
  function Interpolated(s: Option<string>): string {
    if s.Some? then s.value else "undefined"
  }

  /** The clauses excluding the five Google-native types that cannot be downloaded. */
  const NATIVE_TYPES_EXCLUDED :=
    "mimeType != '" + SHORTCUT_TYPE + "' and mimeType != '" + DOCUMENT_TYPE
    + "' and mimeType != '" + SPREADSHEET_TYPE + "' and mimeType != '" + FORM_TYPE
    + "' and mimeType != '" + SITE_TYPE + "'"

  /** The `q` of a folder listing: children of `folderId`, not trashed, not the
      `.password` file, none of the Google-native types. `folderId` is
      interpolated as is, without escaping. */
  function ListingQuery(folderId: string): string {
    "'" + folderId + "' in parents and trashed = false AND name !='.password' and "
    + NATIVE_TYPES_EXCLUDED
  }

  /** The `q` of a search: not trashed, none of the Google-native types, not the
      `.password` file, and the name clauses in parentheses. */
  function SearchQuery(words: seq<string>): string {
    "trashed = false AND " + NATIVE_TYPES_EXCLUDED + " AND name !='.password' AND ("
    + NameSearch(words) + ")"
  }

  /** `name contains '${words.join("' AND name contains '")}'` */
  function NameSearch(words: seq<string>): string {
    "name contains '" + JoinWith(words, "' AND name contains '") + "'"
  }

  /** One name clause. */
  function NameClause(word: string): string {
    "name contains '" + word + "'"
  }

  /** One name clause per word, in order. */
  function NameClauses(words: seq<string>): (r: seq<string>)
    ensures |r| == |words|
    ensures forall i :: 0 <= i < |r| ==> r[i] == NameClause(words[i])
  {
    if words == [] then [] else [NameClause(words[0])] + NameClauses(words[1..])
  }

  /** Each word between `open` and `close`. */
  function Wrapped(words: seq<string>, open: string, close: string): (r: seq<string>)
    ensures |r| == |words|
    ensures forall i :: 0 <= i < |r| ==> r[i] == open + words[i] + close
  {
    if words == [] then [] else [open + words[0] + close] + Wrapped(words[1..], open, close)
  }

  /** Joining with `close + and + open` and wrapping the whole is joining the
      wrapped words with `and`. */
  lemma {:induction false} JoinWrapped(words: seq<string>, open: string, close: string, and: string)
    requires |words| >= 1
    ensures open + JoinWith(words, close + and + open) + close == JoinWith(Wrapped(words, open, close), and)
  {
    if |words| > 1 {
      var rest := JoinWith(words[1..], close + and + open);
      JoinWrapped(words[1..], open, close, and);
      assert Wrapped(words, open, close)[1..] == Wrapped(words[1..], open, close);
      assert open + (words[0] + (close + and + open) + rest) + close
          == (open + words[0] + close) + and + (open + rest + close);
    }
  }

  /** The joined template is the AND of one clause per word, in order. */
  lemma NameSearchIsConjunction(words: seq<string>)
    requires |words| >= 1
    ensures NameSearch(words) == JoinWith(NameClauses(words), " AND ")
  {
    var open, close := "name contains '", "'";
    var sep := close + " AND " + open;
    assert sep == "' AND name contains '";
    assert NameSearch(words) == open + JoinWith(words, sep) + close;
    JoinWrapped(words, open, close, " AND ");
    ClausesAreWrapped(words);
  }

  /** The clause list is each word wrapped in the clause's opening and
      closing text. */
  lemma ClausesAreWrapped(words: seq<string>)
    ensures Wrapped(words, "name contains '", "'") == NameClauses(words)
  {
  }

  /** The `q` of the child-folder lookup: folders named `folderName` under
      `parentId`, not trashed. Both values are interpolated unescaped, so a
      name containing a quote changes the query's structure. */
  function ChildFolderQuery(parentId: string, folderName: string): string {
    "'" + parentId + "' in parents and name = '" + folderName + "' and mimeType = '"
    + FOLDER_TYPE + "' and trashed = false"
  }

  /** `${BASE_URL}/files/${id}?alt=media`: the content URL of a file. */
  function ContentUrl(fileId: string): string {
    BASE_URL + "/files/" + fileId + "?alt=media"
  }
}
