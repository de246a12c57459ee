/** The `/api/download.aspx` handler: streams a file under its raw name,
    forwarding the client's Range header as it is, with optional CORS. It
    checks no HTTP method, refuses metadata without a name, fails on a name
    Node will not put in a header, and answers an upstream 404 with an HTML
    page. */
module DownloadAspx {
  import opened Wrappers
  import opened DriveModel
  import opened Http

  /** The page sent for an upstream 404, white space included. */
  const NOT_FOUND_PAGE :=
    "\n        <html>\n          <head><title>404 Not Found</title></head>\n          <body>\n"
    + "            <h1>404 Not Found</h1>\n            <p>The requested file could not be found.</p>\n"
    + "          </body>\n        </html>\n      "

  /** The request: method, the `id` and `inline` query parameters, and the
      Range header (None when absent). */
  datatype AspxQuery = AspxQuery(httpMethod: string, id: Option<string>, inline: Option<string>, range: Option<string>)

  /** The catch block: the HTML page for an upstream 404, 500 JSON otherwise. */
  function AspxFailure(headers: map<string, string>, e: UpstreamError): Reply {
    if e.status == Some(404) then Reply(404, headers, HtmlBody(NOT_FOUND_PAGE))
    else Reply(500, headers, JsonBody(ErrorJson("Failed to download file")))
  }

  /** The headers, in the order they are set; the name goes in unencoded. */
  function AspxHeaders(name: string, m: Metadata, inline: Option<string>, corsEnabled: bool): map<string, string> {
    var typed := map["Content-Disposition" := Disposition(inline == Some("true"), name)]["Content-Type" := m.mimeType];
    var sized := if m.size.Some? then typed["Content-Length" := SizeText(m.size)] else typed;
    if corsEnabled then sized["Access-Control-Allow-Origin" := "*"] else sized
  }

  /** The handler, given `config.enable_cors_file_down`, the answers of the
      token endpoint, the metadata request and the content request, and
      whether the content stream fails before any byte is sent. The raw name
      goes into the first header set, so a name `setHeader` refuses throws
      there, before any header is set or the content is requested, and the
      catch answers 500. */
  function AspxOutcome(q: AspxQuery, corsEnabled: bool, grant: Result<string, UpstreamError>,
                       meta: Result<Metadata, UpstreamError>, content: Call, streamBreaks: bool): Outcome {
    if !Truthy(q.id) then Outcome(Reply(400, map[], JsonBody(ErrorJson("File ID is required"))), [])
    else
      var id := q.id.value;
      if grant.Failure? then Outcome(AspxFailure(map[], grant.error), [TokenGrant])
      else if meta.Failure? then Outcome(AspxFailure(map[], meta.error), [TokenGrant, GetMetadata(id)])
      else
        var m := meta.value;
        if !Truthy(m.name) then
          Outcome(Reply(500, map[], JsonBody(ErrorJson("Unable to find this file. Try again."))), [TokenGrant, GetMetadata(id)])
        else if !HeaderSafe(Disposition(q.inline == Some("true"), m.name.value)) then
          Outcome(Reply(500, map[], JsonBody(ErrorJson("Failed to download file"))), [TokenGrant, GetMetadata(id)])
        else
          var headers := AspxHeaders(m.name.value, m, q.inline, corsEnabled);
          var range := IfTruthy(q.range);
          var calls := [TokenGrant, GetMetadata(id), GetContent(id, range)];
          match content
          case Fails(e) => Outcome(AspxFailure(headers, e), calls)
          case Ok =>
            if streamBreaks then Outcome(Reply(500, headers, JsonBody(ErrorJson("Streaming failed"))), calls)
            else Outcome(Reply(200, headers, Piped(id, range)), calls)
  }

  /** The catch block, writing to `res`. */
  method AspxFail(res: ServerResponse, e: UpstreamError)
    requires !res.headersSent
    modifies res
    ensures res.Sent() == AspxFailure(old(res.headers), e)
  {
    if e.status == Some(404) {
      res.Status(404);
      res.SendHtml(NOT_FOUND_PAGE);
    } else {
      res.Status(500);
      res.SendJson(ErrorJson("Failed to download file"));
    }
  }

  /** The handler, writing to `res` step by step; `calls` are the upstream
      requests it makes. */
  method HandleAspx(q: AspxQuery, res: ServerResponse, corsEnabled: bool, grant: Result<string, UpstreamError>,
                    meta: Result<Metadata, UpstreamError>, content: Call, streamBreaks: bool)
    returns (calls: seq<UpstreamCall>)
    requires res.Untouched()
    modifies res
    ensures res.Sent() == AspxOutcome(q, corsEnabled, grant, meta, content, streamBreaks).reply
    ensures calls == AspxOutcome(q, corsEnabled, grant, meta, content, streamBreaks).calls
  {
    if !Truthy(q.id) {
      res.Status(400);
      res.SendJson(ErrorJson("File ID is required"));
      return [];
    }
    var id := q.id.value;
    calls := [TokenGrant];
    if grant.Failure? {
      AspxFail(res, grant.error);
      return;
    }
    calls := calls + [GetMetadata(id)];
    if meta.Failure? {
      AspxFail(res, meta.error);
      return;
    }
    var m := meta.value;
    if !Truthy(m.name) {
      res.Status(500);
      res.SendJson(ErrorJson("Unable to find this file. Try again."));
      return;
    }
    var accepted := res.CheckedSetHeader("Content-Disposition", Disposition(q.inline == Some("true"), m.name.value));
    if !accepted {
      res.Status(500);
      res.SendJson(ErrorJson("Failed to download file"));
      return;
    }
    res.SetHeader("Content-Type", m.mimeType);
    if m.size.Some? {
      res.SetHeader("Content-Length", SizeText(m.size));
    }
    if corsEnabled {
      res.SetHeader("Access-Control-Allow-Origin", "*");
    }
    var range := IfTruthy(q.range);
    calls := calls + [GetContent(id, range)];
    if content.Fails? {
      AspxFail(res, content.error);
      return;
    }
    if streamBreaks {
      res.Status(500);
      res.SendJson(ErrorJson("Streaming failed"));
      return;
    }
    res.Pipe(id, range);
  }

  /** No HTTP method is checked: the outcome is the same for every method. */
  lemma AnyMethod(q: AspxQuery, other: string, corsEnabled: bool, grant: Result<string, UpstreamError>,
                  meta: Result<Metadata, UpstreamError>, content: Call, streamBreaks: bool)
    ensures AspxOutcome(q, corsEnabled, grant, meta, content, streamBreaks)
         == AspxOutcome(q.(httpMethod := other), corsEnabled, grant, meta, content, streamBreaks)
  {
  }

  /** A missing or empty `id` gets 400 with no upstream call. */
  lemma MissingId(q: AspxQuery, corsEnabled: bool, grant: Result<string, UpstreamError>,
                  meta: Result<Metadata, UpstreamError>, content: Call, streamBreaks: bool)
    requires !Truthy(q.id)
    ensures var out := AspxOutcome(q, corsEnabled, grant, meta, content, streamBreaks);
      out.calls == [] && out.reply == Reply(400, map[], JsonBody(ErrorJson("File ID is required")))
  {
  }

  /** Metadata without a name gets 500 before any header is set and before
      the content is requested. */
  lemma MissingName(q: AspxQuery, corsEnabled: bool, grant: Result<string, UpstreamError>,
                    m: Metadata, content: Call, streamBreaks: bool)
    requires Truthy(q.id) && grant.Success? && !Truthy(m.name)
    ensures var out := AspxOutcome(q, corsEnabled, grant, Success(m), content, streamBreaks);
      && out.reply == Reply(500, map[], JsonBody(ErrorJson("Unable to find this file. Try again.")))
      && out.calls == [TokenGrant, GetMetadata(q.id.value)]
  {
  }

  /** A name with a character `setHeader` refuses (anything outside tab,
      0x20-0x7E and 0x80-0xFF, such as CJK, Cyrillic or emoji) is answered
      with 500 'Failed to download file' and no header, and the content is
      never requested. */
  lemma UnsafeNameFails(q: AspxQuery, corsEnabled: bool, grant: Result<string, UpstreamError>,
                        m: Metadata, content: Call, streamBreaks: bool)
    requires Truthy(q.id) && grant.Success? && Truthy(m.name) && !HeaderSafe(m.name.value)
    ensures AspxOutcome(q, corsEnabled, grant, Success(m), content, streamBreaks)
         == Outcome(Reply(500, map[], JsonBody(ErrorJson("Failed to download file"))),
                    [TokenGrant, GetMetadata(q.id.value)])
  {
    DispositionSafe(q.inline == Some("true"), m.name.value);
  }

  /** A file named with a Chinese character is one such name. */
  lemma WideNameRefused()
    ensures !HeaderSafe("\U{6587}.pdf")
  {
    assert !HeaderChar("\U{6587}.pdf"[0]);
  }

  /** For a named file whose name `setHeader` accepts: the disposition is `inline` exactly when `inline` is
      "true", with the raw name; `Content-Length` is set exactly when the size
      is known; the CORS header exactly when enabled; and the content request
      carries the client's Range header verbatim, exactly when it is truthy. */
  lemma NamedFileHeaders(q: AspxQuery, corsEnabled: bool, grant: Result<string, UpstreamError>,
                         m: Metadata, content: Call, streamBreaks: bool)
    requires Truthy(q.id) && grant.Success? && Truthy(m.name) && HeaderSafe(m.name.value)
    ensures var out := AspxOutcome(q, corsEnabled, grant, Success(m), content, streamBreaks);
      var h := out.reply.headers;
      && "Content-Disposition" in h
      && h["Content-Disposition"]
           == (if q.inline == Some("true") then "inline" else "attachment") + "; filename=\"" + m.name.value + "\""
      && ("Content-Length" in h <==> m.size.Some?)
      && ("Access-Control-Allow-Origin" in h <==> corsEnabled)
      && |out.calls| == 3
      && out.calls[2].GetContent?
      && (out.calls[2].range.Some? <==> Truthy(q.range))
      && (out.calls[2].range.Some? ==> out.calls[2].range == q.range)
  {
    DispositionSafe(q.inline == Some("true"), m.name.value);
  }

  /** An upstream 404 is answered with the HTML page, any other upstream
      failure with 500 JSON, and a stream that breaks before sending data
      with 500 'Streaming failed'. */
  lemma AspxFailuresMapped(q: AspxQuery, corsEnabled: bool, grant: Result<string, UpstreamError>,
                           meta: Result<Metadata, UpstreamError>, content: Call, streamBreaks: bool, e: UpstreamError)
    requires Truthy(q.id)
    requires || grant == Failure(e)
             || (grant.Success? && meta == Failure(e))
             || (grant.Success? && meta.Success? && Truthy(meta.value.name) && HeaderSafe(meta.value.name.value)
                 && content == Fails(e))
    ensures var r := AspxOutcome(q, corsEnabled, grant, meta, content, streamBreaks).reply;
      && (e.status == Some(404) ==> r.status == 404 && r.body == HtmlBody(NOT_FOUND_PAGE))
      && (e.status != Some(404) ==> r.status == 500 && r.body == JsonBody(ErrorJson("Failed to download file")))
  {
    if grant.Success? && meta.Success? && Truthy(meta.value.name) {
      DispositionSafe(q.inline == Some("true"), meta.value.name.value);
    }
  }

  /** A stream that breaks before any data is answered with 500 JSON. */
  lemma StreamBreaks(q: AspxQuery, corsEnabled: bool, grant: Result<string, UpstreamError>, m: Metadata)
    requires Truthy(q.id) && grant.Success? && Truthy(m.name) && HeaderSafe(m.name.value)
    ensures var r := AspxOutcome(q, corsEnabled, grant, Success(m), Ok, true).reply;
      r.status == 500 && r.body == JsonBody(ErrorJson("Streaming failed"))
  {
    DispositionSafe(q.inline == Some("true"), m.name.value);
  }
}
