/** The `/api/download` handler: by default it makes the file public and
    answers with its direct links; only a request with a truthy `inline` and
    no `directLink=true` streams the content, always inline. */
module DownloadApi {
  import opened Wrappers
  import opened DriveModel
  import opened Http

  /** The request: method and the `fileId`, `inline` and `directLink` query
      parameters (None when absent). */
  datatype DownloadQuery = DownloadQuery(httpMethod: string, fileId: Option<string>, inline: Option<string>, directLink: Option<string>)

  /** Direct-link mode: asked for explicitly, or `inline` missing or empty. */
  predicate DirectLinkMode(q: DownloadQuery) {
    q.directLink == Some("true") || !Truthy(q.inline)
  }

  /** The headers of the inline stream, in the order they are set. */
  function InlineHeaders(m: Metadata, encode: string -> string): map<string, string> {
    var typed := map["Content-Type" := m.mimeType]["Content-Disposition" := Disposition(true, encode(Interpolated(m.name)))];
    WithCors(if m.size.Some? then typed["Content-Length" := SizeText(m.size)] else typed)
  }

  /** The handler, given the answers of the token endpoint, the metadata
      request, the permission request and the content request. */
  function DownloadOutcome(q: DownloadQuery, grant: Result<string, UpstreamError>, meta: Result<Metadata, UpstreamError>,
                           permission: Call, content: Call, encode: string -> string): Outcome {
    if q.httpMethod != "GET" then Outcome(Reply(405, map[], JsonBody(ErrorJson("Method not allowed"))), [])
    else if !Truthy(q.fileId) then Outcome(Reply(400, map[], JsonBody(ErrorJson("File ID is required"))), [])
    else
      var id := q.fileId.value;
      if grant.Failure? then Outcome(FailureReply(map[], grant.error, "Failed to process file"), [TokenGrant])
      else if meta.Failure? then Outcome(FailureReply(map[], meta.error, "Failed to process file"), [TokenGrant, GetMetadata(id)])
      else
        var m := meta.value;
        if DirectLinkMode(q) then
          var calls := [TokenGrant, GetMetadata(id), GrantReader(id)];
          match permission
          case Fails(e) => Outcome(FailureReply(map[], e, "Failed to process file"), calls)
          case Ok => Outcome(Reply(200, map[], JsonBody(LinksJson(m.name, m.mimeType, m.size, DownloadUrl(id), PreviewUrl(id)))), calls)
        else InlineOutcome(id, m, content, encode)
  }

  /** The inline stream, once the metadata `m` of file `id` is in. */
  function InlineOutcome(id: string, m: Metadata, content: Call, encode: string -> string): Outcome {
    var headers := InlineHeaders(m, encode);
    var calls := [TokenGrant, GetMetadata(id), GetContent(id, None)];
    match content
    case Fails(e) => Outcome(FailureReply(headers, e, "Failed to process file"), calls)
    case Ok => Outcome(Reply(200, headers, Piped(id, None)), calls)
  }

  /** The handler, writing to `res` step by step; `calls` are the upstream
      requests it makes. */
  method HandleDownload(q: DownloadQuery, res: ServerResponse, grant: Result<string, UpstreamError>,
                        meta: Result<Metadata, UpstreamError>, permission: Call, content: Call, encode: string -> string)
    returns (calls: seq<UpstreamCall>)
    requires res.Untouched()
    modifies res
    ensures res.Sent() == DownloadOutcome(q, grant, meta, permission, content, encode).reply
    ensures calls == DownloadOutcome(q, grant, meta, permission, content, encode).calls
  {
    if q.httpMethod != "GET" {
      res.Status(405);
      res.SendJson(ErrorJson("Method not allowed"));
      return [];
    }
    if !Truthy(q.fileId) {
      res.Status(400);
      res.SendJson(ErrorJson("File ID is required"));
      return [];
    }
    var id := q.fileId.value;
    calls := [TokenGrant];
    if grant.Failure? {
      Fail(res, grant.error, "Failed to process file");
      return;
    }
    calls := calls + [GetMetadata(id)];
    if meta.Failure? {
      Fail(res, meta.error, "Failed to process file");
      return;
    }
    var m := meta.value;
    if q.directLink == Some("true") || !Truthy(q.inline) {
      calls := calls + [GrantReader(id)];
      if permission.Fails? {
        Fail(res, permission.error, "Failed to process file");
        return;
      }
      res.Status(200);
      res.SendJson(LinksJson(m.name, m.mimeType, m.size, DownloadUrl(id), PreviewUrl(id)));
      return;
    }
    calls := StreamInline(id, m, res, content, encode);
  }

  /** The inline stream, writing to `res`. */
  method StreamInline(id: string, m: Metadata, res: ServerResponse, content: Call, encode: string -> string)
    returns (calls: seq<UpstreamCall>)
    requires res.Untouched()
    modifies res
    ensures res.Sent() == InlineOutcome(id, m, content, encode).reply
    ensures calls == InlineOutcome(id, m, content, encode).calls
  {
    res.SetHeader("Content-Type", m.mimeType);
    res.SetHeader("Content-Disposition", Disposition(true, encode(Interpolated(m.name))));
    if m.size.Some? {
      res.SetHeader("Content-Length", SizeText(m.size));
    }
    AllowCors(res);
    calls := [TokenGrant, GetMetadata(id), GetContent(id, None)];
    if content.Fails? {
      Fail(res, content.error, "Failed to process file");
      return;
    }
    res.Pipe(id, None);
  }

  /** A method other than GET gets 405 'Method not allowed', and a GET
      without a truthy `fileId` gets 400 'File ID is required'; neither sets
      a header or makes an upstream call. */
  lemma DownloadRejectedEarly(q: DownloadQuery, grant: Result<string, UpstreamError>, meta: Result<Metadata, UpstreamError>,
                              permission: Call, content: Call, encode: string -> string)
    requires q.httpMethod != "GET" || !Truthy(q.fileId)
    ensures var out := DownloadOutcome(q, grant, meta, permission, content, encode);
      && out.calls == []
      && out.reply == (if q.httpMethod != "GET" then Reply(405, map[], JsonBody(ErrorJson("Method not allowed")))
                       else Reply(400, map[], JsonBody(ErrorJson("File ID is required"))))
  {
  }

  /** Once the metadata is in, the third call is the permission grant exactly
      in direct-link mode, and otherwise the content request, without range. */
  lemma ModeChoice(q: DownloadQuery, grant: Result<string, UpstreamError>, m: Metadata,
                   permission: Call, content: Call, encode: string -> string)
    requires q.httpMethod == "GET" && Truthy(q.fileId) && grant.Success?
    ensures var out := DownloadOutcome(q, grant, Success(m), permission, content, encode);
      && |out.calls| == 3
      && (out.calls[2] == GrantReader(q.fileId.value) <==> (q.directLink == Some("true") || !Truthy(q.inline)))
      && (out.calls[2] == GetContent(q.fileId.value, None) <==> (q.directLink != Some("true") && Truthy(q.inline)))
  {
  }

  /** In direct-link mode the answer holds the metadata and the two public
      URLs built from the file id. */
  lemma DirectLinks(q: DownloadQuery, grant: Result<string, UpstreamError>, m: Metadata, content: Call, encode: string -> string)
    requires q.httpMethod == "GET" && Truthy(q.fileId) && grant.Success? && DirectLinkMode(q)
    ensures var id := q.fileId.value;
      DownloadOutcome(q, grant, Success(m), Ok, content, encode).reply
        == Reply(200, map[], JsonBody(LinksJson(m.name, m.mimeType, m.size,
             "https://drive.google.com/uc?export=download&id=" + id,
             "https://drive.google.com/file/d/" + id + "/preview")))
  {
  }

  /** The stream is always shown inline under the percent-encoded name, with
      `Content-Length` exactly when the size is known, the CORS headers, and
      status 200. */
  lemma InlineStream(q: DownloadQuery, grant: Result<string, UpstreamError>, m: Metadata, permission: Call, encode: string -> string)
    requires q.httpMethod == "GET" && Truthy(q.fileId) && grant.Success? && !DirectLinkMode(q)
    ensures var r := DownloadOutcome(q, grant, Success(m), permission, Ok, encode).reply;
      && r.status == 200 && r.body == Piped(q.fileId.value, None)
      && "Content-Disposition" in r.headers
      && r.headers["Content-Disposition"] == "inline; filename=\"" + encode(Interpolated(m.name)) + "\""
      && ("Content-Length" in r.headers <==> m.size.Some?)
      && "Access-Control-Allow-Origin" in r.headers && r.headers["Access-Control-Allow-Origin"] == "*"
  {
    assert DownloadOutcome(q, grant, Success(m), permission, Ok, encode) == InlineOutcome(q.fileId.value, m, Ok, encode);
  }

  /** Every failing upstream call ends in 404 'File not found' when Drive
      answered 404, and in 500 'Failed to process file' otherwise. */
  lemma DownloadFailuresMapped(q: DownloadQuery, grant: Result<string, UpstreamError>, meta: Result<Metadata, UpstreamError>,
                               permission: Call, content: Call, encode: string -> string, e: UpstreamError)
    requires q.httpMethod == "GET" && Truthy(q.fileId)
    requires || grant == Failure(e)
             || (grant.Success? && meta == Failure(e))
             || (grant.Success? && meta.Success? && DirectLinkMode(q) && permission == Fails(e))
             || (grant.Success? && meta.Success? && !DirectLinkMode(q) && content == Fails(e))
    ensures var r := DownloadOutcome(q, grant, meta, permission, content, encode).reply;
      && r.status == (if e.status == Some(404) then 404 else 500)
      && r.body == JsonBody(ErrorJson(if e.status == Some(404) then "File not found" else "Failed to process file"))
  {
  }
}
