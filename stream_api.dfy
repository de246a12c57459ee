/** The `/api/stream` handler: validates the request, fetches the file's
    metadata, then either makes the file public and answers with its direct
    links, or streams its content, honouring a byte range (section 14 of
    RFC 9110) without validating it. */
module StreamApi {
  import opened Wrappers
  import opened Text
  import opened JsNumber
  import opened DriveModel
  import opened Http

  /** The request: method, the `fileId`, `inline` and `directLink` query
      parameters, and the Range header (None when absent). */
  datatype StreamQuery = StreamQuery(
    httpMethod: string,
    fileId: Option<string>,
    inline: Option<string>,
    directLink: Option<string>,
    range: Option<string>)

  /* ---------------------------------------------------------------------
     Byte ranges
     --------------------------------------------------------------------- */

  /** `start`, `end` and `chunkSize` as the handler computes them. */
  datatype RangePlan = RangePlan(start: Num, end: Num, chunkSize: Num)

  /** Drops the first "bytes=", splits on "-", reads the start, reads the end
      when the second piece is truthy and takes `size - 1` otherwise, and
      counts `end - start + 1` bytes. Nothing is checked: a missing start,
      a start after the end or an end past the file go through as they are. */
  function PlanRange(range: string, size: Option<nat>): RangePlan {
    PlanPieces(RangePieces(range), size)
  }

  /** `range.replace(/bytes=/, '').split('-')` */
  function RangePieces(range: string): (parts: seq<string>)
    ensures |parts| >= 1
  {
    SplitOn(RemoveFirst(range, "bytes="), '-')
  }

  /** The bounds and length read from the pieces of a range. */
  function PlanPieces(parts: seq<string>, size: Option<nat>): RangePlan
    requires |parts| >= 1
  {
    var start := ParseInt(parts[0]);
    var end := if |parts| > 1 && parts[1] != "" then ParseInt(parts[1]) else Sub(SizeNum(size), Int(1));
    RangePlan(start, end, Add(Sub(end, start), Int(1)))
  }

  /** `bytes S-E/size` */
  function ContentRange(p: RangePlan, size: Option<nat>): string {
    "bytes " + Show(p.start) + "-" + Show(p.end) + "/" + SizeText(size)
  }

  /** `bytes=S-E`, the Range header sent upstream. */
  function UpstreamRange(p: RangePlan): string {
    "bytes=" + Show(p.start) + "-" + Show(p.end)
  }

  /** The numeral of a natural number is what `String` writes for it. */
  lemma ShowNat(n: nat)
    ensures Show(Int(n)) == NatDigits(n)
  {
  }

  /** `parseInt` reads back a numeral. */
  lemma ParseNumeral(n: nat)
    ensures ParseInt(NatDigits(n)) == Int(n)
  {
    ShowNat(n);
    ParseShow(Int(n));
  }

  /** The two pieces of `bytes=a-b` when neither `a` nor `b` holds a "-". */
  lemma PiecesOf(a: string, b: string)
    requires '-' !in a && '-' !in b
    ensures RangePieces("bytes=" + a + "-" + b) == [a, b]
  {
    assert "bytes=" + a + "-" + b == "bytes=" + (a + ['-'] + b);
    RemoveFirstPrefix("bytes=", a + ['-'] + b);
    SplitAfterPiece(a, '-', b);
    SplitWithoutSeparator(b, '-');
  }

  /** The plan of `bytes=a-b` is read from the pieces `a` and `b`. */
  lemma PlanOfPieces(a: string, b: string, size: Option<nat>)
    requires '-' !in a && '-' !in b
    ensures PlanRange("bytes=" + a + "-" + b, size) == PlanPieces([a, b], size)
  {
    PiecesOf(a, b);
  }

  /** Two pieces that parse to `s` and `e` give start `s`, end `e` and
      `e - s + 1` bytes. */
  lemma PlanOfValues(a: string, b: string, s: int, e: int, size: Option<nat>)
    requires b != "" && ParseInt(a) == Int(s) && ParseInt(b) == Int(e)
    ensures PlanPieces([a, b], size) == RangePlan(Int(s), Int(e), Int(e - s + 1))
  {
    PlanOfParsed(a, b, size);
  }

  /** With a non-empty second piece, both bounds are parsed. */
  lemma PlanOfParsed(a: string, b: string, size: Option<nat>)
    requires b != ""
    ensures PlanPieces([a, b], size) == RangePlan(ParseInt(a), ParseInt(b), Add(Sub(ParseInt(b), ParseInt(a)), Int(1)))
  {
  }

  /** `bytes=S-E` gives start S, end E and E - S + 1 bytes, for any size. */
  lemma ClosedRange(s: nat, e: nat, size: Option<nat>)
    ensures PlanRange("bytes=" + NatDigits(s) + "-" + NatDigits(e), size) == RangePlan(Int(s), Int(e), Int(e - s + 1))
  {
    NumeralHasNo(s, '-');
    NumeralHasNo(e, '-');
    PlanOfPieces(NatDigits(s), NatDigits(e), size);
    ParseNumeral(s);
    ParseNumeral(e);
    PlanOfValues(NatDigits(s), NatDigits(e), s, e, size);
  }

  /** `bytes=S-` reads the start and takes the end from the size. */
  lemma OpenPieces(s: nat, size: Option<nat>)
    ensures PlanRange("bytes=" + NatDigits(s) + "-", size)
         == RangePlan(Int(s), Sub(SizeNum(size), Int(1)), Add(Sub(Sub(SizeNum(size), Int(1)), Int(s)), Int(1)))
  {
    var a := NatDigits(s);
    NumeralHasNo(s, '-');
    assert "bytes=" + a + "-" == "bytes=" + a + "-" + "";
    PiecesOf(a, "");
    ParseNumeral(s);
    assert PlanPieces([a, ""], size)
        == RangePlan(Int(s), Sub(SizeNum(size), Int(1)), Add(Sub(Sub(SizeNum(size), Int(1)), Int(s)), Int(1)));
  }

  /** `bytes=S-` on a file of `n` bytes ends at byte n - 1 and counts n - S bytes. */
  lemma OpenRange(s: nat, n: nat)
    ensures PlanRange("bytes=" + NatDigits(s) + "-", Some(n)) == RangePlan(Int(s), Int(n - 1), Int(n - s))
  {
    OpenPieces(s, Some(n));
    OpenArithmetic(s, n);
  }

  /** The end and the length of `bytes=S-` on a file of `n` bytes. */
  lemma OpenArithmetic(s: nat, n: nat)
    ensures Sub(SizeNum(Some(n)), Int(1)) == Int(n - 1)
    ensures Add(Sub(Sub(SizeNum(Some(n)), Int(1)), Int(s)), Int(1)) == Int(n - s)
  {
  }

  /** `bytes=S-` with no size known ends at NaN. */
  lemma OpenRangeWithoutSize(s: nat)
    ensures PlanRange("bytes=" + NatDigits(s) + "-", None) == RangePlan(Int(s), NaN, NaN)
  {
    OpenPieces(s, None);
  }

  /** A suffix range `bytes=-N` (the last N bytes) is not understood: its
      start and length are NaN, and N is taken as the end. */
  lemma SuffixRange(n: nat, size: Option<nat>)
    ensures PlanRange("bytes=-" + NatDigits(n), size) == RangePlan(NaN, Int(n), NaN)
  {
    var b := NatDigits(n);
    NumeralHasNo(n, '-');
    assert "bytes=-" + b == "bytes=" + "" + "-" + b;
    PlanOfPieces("", b, size);
    PlanOfParsed("", b, size);
    ParseNumeral(n);
    ParseEmpty();
  }

  /* ---------------------------------------------------------------------
     The handler
     --------------------------------------------------------------------- */

  /** The headers of the streaming branch, in the order they are set; a
      range overwrites `Content-Length` with the chunk size. */
  function StreamHeaders(m: Metadata, inline: Option<string>, range: Option<string>, encode: string -> string): map<string, string> {
    var typed := map["Content-Type" := m.mimeType]
      ["Content-Disposition" := Disposition(inline == Some("true"), encode(Interpolated(m.name)))];
    var sized := if m.size.Some? then typed["Content-Length" := SizeText(m.size)] else typed;
    var cors := WithCors(sized);
    if Truthy(range) then
      var p := PlanRange(range.value, m.size);
      cors["Content-Range" := ContentRange(p, m.size)]["Accept-Ranges" := "bytes"]["Content-Length" := Show(p.chunkSize)]
    else cors
  }

  /** The Range header of the content request: the computed bounds when the
      client sent a range, none otherwise. */
  function ContentRangeParam(m: Metadata, range: Option<string>): Option<string> {
    if Truthy(range) then Some(UpstreamRange(PlanRange(range.value, m.size))) else None
  }

  /** The handler, given the answers of the token endpoint, the metadata
      request, the permission request and the content request. */
  function StreamOutcome(q: StreamQuery, grant: Result<string, UpstreamError>, meta: Result<Metadata, UpstreamError>,
                         permission: Call, content: Call, encode: string -> string): Outcome {
    if q.httpMethod != "GET" then Outcome(Reply(405, map[], JsonBody(ErrorJson("Method not allowed"))), [])
    else if !Truthy(q.fileId) then Outcome(Reply(400, map[], JsonBody(ErrorJson("File ID is required"))), [])
    else
      var id := q.fileId.value;
      if grant.Failure? then Outcome(FailureReply(map[], grant.error, "Failed to stream file"), [TokenGrant])
      else if meta.Failure? then Outcome(FailureReply(map[], meta.error, "Failed to stream file"), [TokenGrant, GetMetadata(id)])
      else
        var m := meta.value;
        if q.directLink == Some("true") then
          var calls := [TokenGrant, GetMetadata(id), GrantReader(id)];
          match permission
          case Fails(e) => Outcome(FailureReply(map[], e, "Failed to stream file"), calls)
          case Ok => Outcome(Reply(200, map[], JsonBody(LinksJson(m.name, m.mimeType, m.size, DownloadUrl(id), PreviewUrl(id)))), calls)
        else StreamingOutcome(q, id, m, content, encode)
  }

  /** The streaming branch, once the metadata `m` of file `id` is in. */
  function StreamingOutcome(q: StreamQuery, id: string, m: Metadata, content: Call, encode: string -> string): Outcome {
    var headers := StreamHeaders(m, q.inline, q.range, encode);
    var upstream := ContentRangeParam(m, q.range);
    var calls := [TokenGrant, GetMetadata(id), GetContent(id, upstream)];
    match content
    case Fails(e) => Outcome(FailureReply(headers, e, "Failed to stream file"), calls)
    case Ok => Outcome(Reply(if Truthy(q.range) then 206 else 200, headers, Piped(id, upstream)), calls)
  }

  /** The handler, writing to `res` step by step; `calls` are the upstream
      requests it makes. */
  method HandleStream(q: StreamQuery, res: ServerResponse, grant: Result<string, UpstreamError>,
                      meta: Result<Metadata, UpstreamError>, permission: Call, content: Call, encode: string -> string)
    returns (calls: seq<UpstreamCall>)
    requires res.Untouched()
    modifies res
    ensures res.Sent() == StreamOutcome(q, grant, meta, permission, content, encode).reply
    ensures calls == StreamOutcome(q, grant, meta, permission, content, encode).calls
  {
    if q.httpMethod != "GET" {
      res.Status(405);
      res.SendJson(ErrorJson("Method not allowed"));
      return [];
    }
    if !Truthy(q.fileId) {
      res.Status(400);
      res.SendJson(ErrorJson("File ID is required"));
      return [];
    }
    var id := q.fileId.value;
    calls := [TokenGrant];
    if grant.Failure? {
      Fail(res, grant.error, "Failed to stream file");
      return;
    }
    calls := calls + [GetMetadata(id)];
    if meta.Failure? {
      Fail(res, meta.error, "Failed to stream file");
      return;
    }
    var m := meta.value;
    if q.directLink == Some("true") {
      calls := calls + [GrantReader(id)];
      if permission.Fails? {
        Fail(res, permission.error, "Failed to stream file");
        return;
      }
      res.Status(200);
      res.SendJson(LinksJson(m.name, m.mimeType, m.size, DownloadUrl(id), PreviewUrl(id)));
      return;
    }
    calls := StreamFile(q, id, m, res, content, encode);
  }

  /** The headers of the streaming branch, and 206 for a range. */
  method WriteStreamHeaders(res: ServerResponse, m: Metadata, inline: Option<string>, range: Option<string>, encode: string -> string)
    requires res.Untouched()
    modifies res
    ensures res.Sent() == Reply(if Truthy(range) then 206 else 200, StreamHeaders(m, inline, range, encode), NoBody)
    ensures !res.headersSent
  {
    res.SetHeader("Content-Type", m.mimeType);
    res.SetHeader("Content-Disposition", Disposition(inline == Some("true"), encode(Interpolated(m.name))));
    if m.size.Some? {
      res.SetHeader("Content-Length", SizeText(m.size));
    }
    AllowCors(res);
    if Truthy(range) {
      var p := PlanRange(range.value, m.size);
      res.SetHeader("Content-Range", ContentRange(p, m.size));
      res.SetHeader("Accept-Ranges", "bytes");
      res.SetHeader("Content-Length", Show(p.chunkSize));
      res.Status(206);
    }
  }

  /** The streaming branch, writing to `res`. */
  method StreamFile(q: StreamQuery, id: string, m: Metadata, res: ServerResponse, content: Call, encode: string -> string)
    returns (calls: seq<UpstreamCall>)
    requires res.Untouched()
    modifies res
    ensures res.Sent() == StreamingOutcome(q, id, m, content, encode).reply
    ensures calls == StreamingOutcome(q, id, m, content, encode).calls
  {
    WriteStreamHeaders(res, m, q.inline, q.range, encode);
    var upstream: Option<string> := None;
    if Truthy(q.range) {
      upstream := Some(UpstreamRange(PlanRange(q.range.value, m.size)));
    }
    calls := [TokenGrant, GetMetadata(id), GetContent(id, upstream)];
    if content.Fails? {
      Fail(res, content.error, "Failed to stream file");
      return;
    }
    res.Pipe(id, upstream);
  }

  /* ---------------------------------------------------------------------
     Properties of the handler
     --------------------------------------------------------------------- */

  /** A method other than GET gets 405, and a GET without a truthy `fileId`
      gets 400; neither makes an upstream call, the token request included. */
  lemma RejectedEarly(q: StreamQuery, grant: Result<string, UpstreamError>, meta: Result<Metadata, UpstreamError>,
                      permission: Call, content: Call, encode: string -> string)
    requires q.httpMethod != "GET" || !Truthy(q.fileId)
    ensures var out := StreamOutcome(q, grant, meta, permission, content, encode);
      && out.calls == []
      && out.reply == (if q.httpMethod != "GET" then Reply(405, map[], JsonBody(ErrorJson("Method not allowed")))
                       else Reply(400, map[], JsonBody(ErrorJson("File ID is required"))))
  {
  }

  /** With `directLink=true` the file is made readable by anyone, no content
      is requested, and the answer holds the metadata and the two public URLs
      built from the file id. */
  lemma DirectLinkAnswer(q: StreamQuery, grant: Result<string, UpstreamError>, m: Metadata,
                         content: Call, encode: string -> string)
    requires q.httpMethod == "GET" && Truthy(q.fileId) && grant.Success? && q.directLink == Some("true")
    ensures var id := q.fileId.value;
      var out := StreamOutcome(q, grant, Success(m), Ok, content, encode);
      && out.calls == [TokenGrant, GetMetadata(id), GrantReader(id)]
      && out.reply == Reply(200, map[], JsonBody(LinksJson(m.name, m.mimeType, m.size,
           "https://drive.google.com/uc?export=download&id=" + id,
           "https://drive.google.com/file/d/" + id + "/preview")))
  {
  }

  /** In the streaming branch the disposition is `inline` exactly when
      `inline` is "true", `attachment` otherwise, with the percent-encoded
      name as file name; the content type is the file's. */
  lemma DispositionChoice(m: Metadata, inline: Option<string>, range: Option<string>, encode: string -> string)
    ensures var h := StreamHeaders(m, inline, range, encode);
      && "Content-Disposition" in h && "Content-Type" in h
      && h["Content-Type"] == m.mimeType
      && h["Content-Disposition"]
           == (if inline == Some("true") then "inline" else "attachment") + "; filename=\"" + encode(Interpolated(m.name)) + "\""
  {
  }

  /** Without a range, `Content-Length` is set exactly when the size is known,
      to the size, and there is no `Content-Range`; the whole file is
      requested, and a successful answer is 200. */
  lemma WholeFile(q: StreamQuery, grant: Result<string, UpstreamError>, m: Metadata, encode: string -> string)
    requires q.httpMethod == "GET" && Truthy(q.fileId) && grant.Success? && q.directLink != Some("true")
    requires !Truthy(q.range)
    ensures var out := StreamOutcome(q, grant, Success(m), Ok, Ok, encode);
      var h := out.reply.headers;
      && out.reply.status == 200
      && out.reply.body == Piped(q.fileId.value, None)
      && out.calls[2] == GetContent(q.fileId.value, None)
      && ("Content-Length" in h <==> m.size.Some?)
      && (m.size.Some? ==> h["Content-Length"] == NatDigits(m.size.value))
      && "Content-Range" !in h
  {
  }

  /** With a range, the reply is 206 with the computed `Content-Range`,
      `Accept-Ranges: bytes`, the chunk size as `Content-Length`, and the
      computed bounds sent upstream. */
  lemma RangedReply(q: StreamQuery, grant: Result<string, UpstreamError>, m: Metadata, encode: string -> string)
    requires q.httpMethod == "GET" && Truthy(q.fileId) && grant.Success? && q.directLink != Some("true")
    requires Truthy(q.range)
    ensures var out := StreamOutcome(q, grant, Success(m), Ok, Ok, encode);
      var h := out.reply.headers;
      var p := PlanRange(q.range.value, m.size);
      && out.reply.status == 206
      && "Content-Range" in h && h["Content-Range"] == ContentRange(p, m.size)
      && "Accept-Ranges" in h && h["Accept-Ranges"] == "bytes"
      && "Content-Length" in h && h["Content-Length"] == Show(p.chunkSize)
      && out.calls[2] == GetContent(q.fileId.value, Some(UpstreamRange(p)))
  {
  }

  /** `Range: bytes=S-E` on a file of n bytes: 206, `Content-Range: bytes
      S-E/n`, `Accept-Ranges: bytes`, `Content-Length: E-S+1`, and the same
      bounds sent upstream. */
  lemma PartialContent(q: StreamQuery, grant: Result<string, UpstreamError>, m: Metadata, encode: string -> string,
                       s: nat, e: nat, n: nat)
    requires q.httpMethod == "GET" && Truthy(q.fileId) && grant.Success? && q.directLink != Some("true")
    requires q.range == Some("bytes=" + NatDigits(s) + "-" + NatDigits(e)) && m.size == Some(n)
    ensures var out := StreamOutcome(q, grant, Success(m), Ok, Ok, encode);
      var h := out.reply.headers;
      && out.reply.status == 206
      && "Content-Range" in h && h["Content-Range"] == "bytes " + NatDigits(s) + "-" + NatDigits(e) + "/" + NatDigits(n)
      && "Accept-Ranges" in h && h["Accept-Ranges"] == "bytes"
      && "Content-Length" in h && h["Content-Length"] == Show(Int(e - s + 1))
      && out.calls[2] == GetContent(q.fileId.value, Some("bytes=" + NatDigits(s) + "-" + NatDigits(e)))
  {
    RangedReply(q, grant, m, encode);
    ClosedRange(s, e, m.size);
    ShowNat(s);
    ShowNat(e);
  }

  /** Every failing upstream call ends in 404 'File not found' when Drive
      answered 404, and in 500 'Failed to stream file' otherwise. */
  lemma FailuresMapped(q: StreamQuery, grant: Result<string, UpstreamError>, meta: Result<Metadata, UpstreamError>,
                       permission: Call, content: Call, encode: string -> string, e: UpstreamError)
    requires q.httpMethod == "GET" && Truthy(q.fileId)
    requires || grant == Failure(e)
             || (grant.Success? && meta == Failure(e))
             || (grant.Success? && meta.Success? && q.directLink == Some("true") && permission == Fails(e))
             || (grant.Success? && meta.Success? && q.directLink != Some("true") && content == Fails(e))
    ensures var r := StreamOutcome(q, grant, meta, permission, content, encode).reply;
      && r.status == (if e.status == Some(404) then 404 else 500)
      && r.body == JsonBody(ErrorJson(if e.status == Some(404) then "File not found" else "Failed to stream file"))
  {
  }
}
