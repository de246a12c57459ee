/** The HTTP side of the serverless handlers: the response object they write
    to step by step, what a response ends up holding, and the upstream calls
    a handler makes, in order. */
module Http {
  import opened Wrappers
  import opened JsNumber
  import opened DriveModel

  /** A JSON body a handler sends. */
  datatype Json =
    | ErrorJson(error: string)
      /** `response.data` of `files.list`, or the empty page. */
    | PageJson(page: Page)
      /** The direct-link answer: metadata and the two public URLs. */
    | LinksJson(name: Option<string>, mimeType: string, size: Option<nat>, downloadUrl: string, previewUrl: string)

  /** What the body of a response is: nothing yet, JSON, an HTML page, or the
      upstream content piped through (identified by the content request). */
  datatype Body = NoBody | JsonBody(json: Json) | HtmlBody(html: string) | Piped(fileId: string, range: Option<string>)

  /** A status, the headers set on the response, and its body. */
  datatype Reply = Reply(status: int, headers: map<string, string>, body: Body)

  /** An upstream request a handler makes. */
  datatype UpstreamCall =
    | TokenGrant
    | GetMetadata(fileId: string)
      /** The POST that makes a file readable by anyone with the link. */
    | GrantReader(fileId: string)
      /** The `alt=media` request, with the Range header it carries. */
    | GetContent(fileId: string, range: Option<string>)
    | FilesList(request: ListRequest)

  /** How an upstream request whose answer is not read turns out. */
  datatype Call = Ok | Fails(error: UpstreamError)

  /** `{ name, mimeType, size }` of a `files.get` answer; Drive sends `size`
      as a decimal string and leaves it out for folders and native files. */
  datatype Metadata = Metadata(name: Option<string>, mimeType: string, size: Option<nat>)

  /** `${size}`: the decimal numeral, or "undefined" when absent. */
  function SizeText(size: Option<nat>): string {
    if size.Some? then Show(Int(size.value)) else "undefined"
  }

  /** `size` used as a number: NaN when absent. */
  function SizeNum(size: Option<nat>): (r: Num)
    ensures r.Int? <==> size.Some?
  {
    if size.Some? then Int(size.value) else NaN
  }

  /** The public download URL of a file. */
  function DownloadUrl(fileId: string): string {
    "https://drive.google.com/uc?export=download&id=" + fileId
  }

  /** The public preview URL of a file. */
  function PreviewUrl(fileId: string): string {
    "https://drive.google.com/file/d/" + fileId + "/preview"
  }

  /** `<kind>; filename="<filename>"` */
  function Disposition(inline: bool, filename: string): string {
    (if inline then "inline" else "attachment") + "; filename=\"" + filename + "\""
  }

  /** A character Node accepts in a header value: tab, 0x20-0x7E or
      0x80-0xFF. */
  predicate HeaderChar(c: char) {
    c == '\t' || (' ' <= c <= '~') || ('\U{0080}' <= c <= '\U{00FF}')
  }

  /** A value `res.setHeader` takes without throwing `ERR_INVALID_CHAR`. */
  predicate HeaderSafe(value: string) {
    forall i :: 0 <= i < |value| ==> HeaderChar(value[i])
  }

  /** The disposition is accepted exactly when the file name is: the rest of
      it is printable ASCII. */
  lemma DispositionSafe(inline: bool, filename: string)
    ensures HeaderSafe(Disposition(inline, filename)) <==> HeaderSafe(filename)
  {
    var head := (if inline then "inline" else "attachment") + "; filename=\"";
    assert Disposition(inline, filename) == head + filename + "\"";
    if HeaderSafe(filename) {
      forall i | 0 <= i < |Disposition(inline, filename)|
        ensures HeaderChar(Disposition(inline, filename)[i])
      {
        if i >= |head| && i < |head| + |filename| {
          assert Disposition(inline, filename)[i] == filename[i - |head|];
        }
      }
    } else {
      var j :| 0 <= j < |filename| && !HeaderChar(filename[j]);
      assert Disposition(inline, filename)[|head| + j] == filename[j];
    }
  }

  /** What a handler leaves: the reply, and the upstream calls it made, in
      order. */
  datatype Outcome = Outcome(reply: Reply, calls: seq<UpstreamCall>)

  /** The catch block of the streaming handlers: 404 with 'File not found'
      for an upstream 404, 500 with `message` for anything else; the headers
      set before the failure stay. */
  function FailureReply(headers: map<string, string>, e: UpstreamError, message: string): Reply {
    if e.status == Some(404) then Reply(404, headers, JsonBody(ErrorJson("File not found")))
    else Reply(500, headers, JsonBody(ErrorJson(message)))
  }

  /** The three CORS headers that allow cross-origin streaming with ranges. */
  function WithCors(headers: map<string, string>): map<string, string> {
    headers["Access-Control-Allow-Origin" := "*"]["Access-Control-Allow-Methods" := "GET, OPTIONS"]
      ["Access-Control-Allow-Headers" := "Range"]
  }

  /** A response object as the platform hands it over, and as the handler
      leaves it. `headersSent` turns true once a body has been written. */
  class ServerResponse {
    var statusCode: int
    var headers: map<string, string>
    var body: Body
    var headersSent: bool

    /** What the client receives. */
    function Sent(): Reply
      reads this
    {
      Reply(statusCode, headers, body)
    }

    /** Nothing written yet. */
    predicate Untouched()
      reads this
    {
      statusCode == 200 && headers == map[] && body == NoBody && !headersSent
    }

    constructor ()
      ensures Untouched()
    {
      statusCode := 200;
      headers := map[];
      body := NoBody;
      headersSent := false;
    }

    /** `res.setHeader(name, value)`: replaces any earlier value. */
    method SetHeader(name: string, value: string)
      requires !headersSent
      modifies this
      ensures headers == old(headers)[name := value]
      ensures statusCode == old(statusCode) && body == old(body) && !headersSent
    {
      headers := headers[name := value];
    }

    /** `res.setHeader(name, value)` with Node's check of the value: a value
        with a character it refuses throws before anything is set; `ok` says
        whether the header was set. */
    method CheckedSetHeader(name: string, value: string) returns (ok: bool)
      requires !headersSent
      modifies this
      ensures ok <==> HeaderSafe(value)
      ensures headers == if ok then old(headers)[name := value] else old(headers)
      ensures statusCode == old(statusCode) && body == old(body) && !headersSent
    {
      ok := HeaderSafe(value);
      if ok {
        headers := headers[name := value];
      }
    }

    /** `res.status(code)` */
    method Status(code: int)
      modifies this
      ensures statusCode == code
      ensures headers == old(headers) && body == old(body) && headersSent == old(headersSent)
    {
      statusCode := code;
    }

    /** `res.json(value)`: writes the body once. */
    method SendJson(value: Json)
      requires !headersSent
      modifies this
      ensures body == JsonBody(value) && headersSent
      ensures statusCode == old(statusCode) && headers == old(headers)
    {
      body := JsonBody(value);
      headersSent := true;
    }

    /** `res.send(html)` */
    method SendHtml(html: string)
      requires !headersSent
      modifies this
      ensures body == HtmlBody(html) && headersSent
      ensures statusCode == old(statusCode) && headers == old(headers)
    {
      body := HtmlBody(html);
      headersSent := true;
    }

    /** `response.data.pipe(res)` once the content request has answered. */
    method Pipe(fileId: string, range: Option<string>)
      requires !headersSent
      modifies this
      ensures body == Piped(fileId, range) && headersSent
      ensures statusCode == old(statusCode) && headers == old(headers)
    {
      body := Piped(fileId, range);
      headersSent := true;
    }
  }

  /** The catch block: writes the failure reply unless a body was already
      written, in which case nothing changes. */
  method Fail(res: ServerResponse, e: UpstreamError, message: string)
    modifies res
    ensures res.headersSent
    ensures old(res.headersSent) ==> res.Sent() == old(res.Sent())
    ensures !old(res.headersSent) ==> res.Sent() == FailureReply(old(res.headers), e, message)
  {
    if !res.headersSent {
      if e.status == Some(404) {
        res.Status(404);
        res.SendJson(ErrorJson("File not found"));
      } else {
        res.Status(500);
        res.SendJson(ErrorJson(message));
      }
    }
  }

  /** Sets the three CORS headers. */
  method AllowCors(res: ServerResponse)
    requires !res.headersSent
    modifies res
    ensures res.Sent() == old(res.Sent()).(headers := WithCors(old(res.headers)))
    ensures !res.headersSent
  {
    res.SetHeader("Access-Control-Allow-Origin", "*");
    res.SetHeader("Access-Control-Allow-Methods", "GET, OPTIONS");
    res.SetHeader("Access-Control-Allow-Headers", "Range");
  }
}
