/**
 * The request and response rules of the HTTP helper: the URL and Content-Type a
 * request gets, the form fields written from its parameters, the payload of
 * getUpdates, and the envelope check that turns a reply into a result or an error.
 * Network, file and multipart I/O are parameters: whether the file opens, the
 * multipart boundary, and the transport that maps a request to a reply.
 */
module ApiHelper {
  import opened Outcomes
  import opened UrlValues
  import Optionals

  // Responses.

  /**
   * A decoded JSON value, shaped as encoding/json decodes it into interface{}:
   * null, bool, number, string, []interface{} or map[string]interface{}. A number
   * keeps its literal text here; encoding/json turns it into a float64.
   */
  datatype Json =
    | JNull
    | JBool(b: bool)
    | JNumber(literal: string)
    | JString(s: string)
    | JArray(items: seq<Json>)
    | JObject(members: map<string, Json>)

  /** What reading the response body and decoding it as JSON gave. */
  datatype Body = Unreadable | Malformed | Parsed(json: Json)

  datatype Response = Response(statusCode: int, body: Body)

  /** The errors the helper returns; their message text is not modelled. */
  datatype Error =
    | HttpStatus(code: int)
    | BodyUnreadable
    | InvalidJson
    | NotOk
    | FileUnavailable
    | TransportFailed

  /**
   * json.Unmarshal into map[string]interface{}: an object gives its members, JSON
   * null leaves the map nil (no members, no error), any other value is an error.
   */
  function DecodeEnvelope(j: Json): (r: Option<map<string, Json>>)
    ensures r.Some? <==> j.JObject? || j.JNull?
    ensures j.JObject? ==> r == Some(j.members)
    ensures j.JNull? ==> r == Some(map[])
  {
    match j
    case JObject(m) => Some(m)
    case JNull => Some(map[])
    case _ => None
  }

  /** Indexing a Go map: a missing key reads as nil. */
  function Member(m: map<string, Json>, key: string): Json
  {
    if key in m then m[key] else JNull
  }

  /** A well-formed success envelope: an object whose "ok" member is the boolean true. */
  predicate IsOkEnvelope(j: Json)
  {
    j.JObject? && "ok" in j.members && j.members["ok"] == JBool(true)
  }

  /**
   * checkResult: a status other than 200 is an error whatever the body holds; with
   * 200, an unreadable body, a body that is not a JSON object (or null), or an "ok"
   * member that is not exactly true is an error; otherwise the result is the
   * "result" member alone (null when absent), not the whole envelope.
   */
  function CheckResult(resp: Response): (r: Result<Json, Error>)
    ensures resp.statusCode != 200 ==> r == Failure(HttpStatus(resp.statusCode))
    ensures r.Success? <==> resp.statusCode == 200 && resp.body.Parsed? && IsOkEnvelope(resp.body.json)
    ensures r.Success? ==> r.value == Member(resp.body.json.members, "result")
    ensures resp.statusCode == 200 && resp.body.Unreadable? ==> r == Failure(BodyUnreadable)
    ensures resp.statusCode == 200 && resp.body.Malformed? ==> r == Failure(InvalidJson)
    ensures resp.statusCode == 200 && resp.body.Parsed? ==>
      (r == Failure(InvalidJson) <==> !resp.body.json.JObject? && !resp.body.json.JNull?)
  {
    if resp.statusCode != 200 then
      Failure(HttpStatus(resp.statusCode))
    else
      match resp.body
      case Unreadable => Failure(BodyUnreadable)
      case Malformed => Failure(InvalidJson)
      case Parsed(j) =>
        match DecodeEnvelope(j)
        case None => Failure(InvalidJson)
        case Some(m) =>
          if Member(m, "ok") != JBool(true) then Failure(NotOk)
          else Success(Member(m, "result"))
  }

  /** A 200 reply whose envelope says ok unwraps to exactly its "result" member. */
  lemma CheckResultUnwraps(members: map<string, Json>, result: Json)
    requires "ok" in members && members["ok"] == JBool(true)
    requires "result" in members && members["result"] == result
    ensures CheckResult(Response(200, Parsed(JObject(members)))) == Success(result)
  {
  }

  /** An "ok" member that is anything but the boolean true (missing, false, "true", 1) is an API error. */
  lemma CheckResultNotOk(members: map<string, Json>)
    requires "ok" !in members || members["ok"] != JBool(true)
    ensures CheckResult(Response(200, Parsed(JObject(members)))) == Failure(NotOk)
  {
  }

  // Requests.

  const Endpoint := "https://api.telegram.org/bot"
  const FormUrlEncoded := "application/x-www-form-urlencoded"

  /** The URL every call is posted to: the endpoint, the token, a '/', the method name. */
  function RequestUrl(token: string, apiMethod: string): (url: string)
    ensures |url| == |Endpoint| + |token| + 1 + |apiMethod|
    ensures url[..|Endpoint|] == Endpoint
    ensures url[|Endpoint|..|Endpoint| + |token|] == token
    ensures url[|Endpoint| + |token|] == '/'
    ensures url[|Endpoint| + |token| + 1..] == apiMethod
  {
    Endpoint + token + "/" + apiMethod
  }

  /** The position of the first '/' in s, if any. */
  function FirstSlash(s: string): (i: Option<nat>)
    ensures i.Some? ==> i.value < |s| && s[i.value] == '/' && '/' !in s[..i.value]
    ensures i.None? ==> '/' !in s
  {
    if s == [] then None
    else if s[0] == '/' then Some(0)
    else
      match FirstSlash(s[1..])
      case None => None
      case Some(j) => Some(j + 1)
  }

  /** Reads the token and the method name back out of a request URL. */
  function SplitRequestUrl(url: string): Option<(string, string)>
  {
    if |url| < |Endpoint| || url[..|Endpoint|] != Endpoint then None
    else
      var rest := url[|Endpoint|..];
      match FirstSlash(rest)
      case None => None
      case Some(i) => Some((rest[..i], rest[i + 1..]))
  }

  /**
   * A request URL names its token and method unambiguously as long as the token
   * holds no '/'; the method name may hold anything.
   */
  lemma RequestUrlRoundTrip(token: string, apiMethod: string)
    requires '/' !in token
    ensures SplitRequestUrl(RequestUrl(token, apiMethod)) == Some((token, apiMethod))
  {
    var url := RequestUrl(token, apiMethod);
    assert url[..|Endpoint|] == Endpoint;
    var rest := url[|Endpoint|..];
    assert rest == token + "/" + apiMethod;
    assert rest[..|token|] == token;
    FirstSlashAt(rest, |token|);
    assert rest[|token| + 1..] == apiMethod;
  }

  lemma {:induction false} FirstSlashAt(s: string, i: nat)
    requires i < |s| && s[i] == '/' && '/' !in s[..i]
    ensures FirstSlash(s) == Some(i)
  {
    if i > 0 {
      assert s[0] in s[..i];
      assert s[1..][..i - 1] == s[..i][1..];
      FirstSlashAt(s[1..], i - 1);
    }
  }

  /** multipart.Writer.FormDataContentType for the writer's boundary. */
  function FormDataContentType(boundary: string): string
  {
    "multipart/form-data; boundary=" + boundary
  }

  /** The Content-Type header: form-urlencoded exactly when no file is attached. */
  function ContentType(path: string, boundary: string): (ct: string)
    ensures ct == FormUrlEncoded <==> path == ""
    ensures path != "" ==> ct == FormDataContentType(boundary)
  {
    if path == "" then FormUrlEncoded
    else
      var ct := FormDataContentType(boundary);
      assert ct[0] != FormUrlEncoded[0];
      ct
  }

  /** The form fields written for params: each key with a value, mapped to its first value. */
  function FirstValues(params: Values): map<string, string>
  {
    map k | k in params && |params[k]| > 0 :: params[k][0]
  }

  /**
   * sendRequest's loop over the parameters: for each key (in no particular order)
   * that has at least one value, writes its first value as a form field; later
   * values and keys with no value are not written.
   */
  method WriteFields(params: Values) returns (written: map<string, string>)
    ensures forall k :: k in written <==> k in params && |params[k]| > 0
    ensures forall k :: k in written ==> written[k] == params[k][0]
    ensures written == FirstValues(params)
  {
    written := map[];
    var pending := params.Keys;
    while pending != {}
      invariant pending <= params.Keys
      invariant forall k :: k in written <==> k in params && k !in pending && |params[k]| > 0
      invariant forall k :: k in written ==> written[k] == params[k][0]
      decreases pending
    {
      var field :| field in pending;
      var values := params[field];
      if |values| > 0 {
        written := written[field := values[0]];
      }
      pending := pending - {field};
    }
  }

  /** The file attached under form field name, taken from path. */
  datatype FilePart = FilePart(fieldName: string, path: string)

  /** What sendRequest posts: where, with which Content-Type, which form fields, which file. */
  datatype Request = Request(url: string, contentType: string, fields: map<string, string>, file: Option<FilePart>)

  /** The request sendRequest posts once the file (if any) has been opened. */
  function RequestFor(apiMethod: string, token: string, name: string, path: string, params: Values,
                      boundary: string): Request
  {
    Request(RequestUrl(token, apiMethod), ContentType(path, boundary), FirstValues(params),
            if path == "" then None else Some(FilePart(name, path)))
  }

  /**
   * The request-building half of sendRequest. A file path that cannot be opened
   * fails before any request exists; otherwise the request is RequestFor.
   */
  method BuildRequest(apiMethod: string, token: string, name: string, path: string, params: Values,
                      fileOpens: bool, boundary: string)
    returns (r: Result<Request, Error>)
    ensures path != "" && !fileOpens ==> r == Failure(FileUnavailable)
    ensures path == "" || fileOpens ==> r == Success(RequestFor(apiMethod, token, name, path, params, boundary))
  {
    var file: Option<FilePart> := None;
    if path != "" {
      if !fileOpens {
        return Failure(FileUnavailable);
      }
      file := Some(FilePart(name, path));
    }
    var fields := WriteFields(params);
    var url := Endpoint + token + "/" + apiMethod;
    var contentType: string;
    if path == "" {
      contentType := FormUrlEncoded;
    } else {
      contentType := FormDataContentType(boundary);
    }
    r := Success(Request(url, contentType, fields, file));
  }

  /** The outcome of posting a request: a transport failure, or checkResult of the reply. */
  function Deliver(reply: Option<Response>): Result<Json, Error>
  {
    match reply
    case None => Failure(TransportFailed)
    case Some(resp) => CheckResult(resp)
  }

  /**
   * sendRequest: build the request, post it through transport, check the reply.
   */
  method SendRequest(apiMethod: string, token: string, name: string, path: string, params: Values,
                     fileOpens: bool, boundary: string, transport: Request -> Option<Response>)
    returns (r: Result<Json, Error>)
    ensures path != "" && !fileOpens ==> r == Failure(FileUnavailable)
    ensures path == "" || fileOpens ==>
      r == Deliver(transport(RequestFor(apiMethod, token, name, path, params, boundary)))
  {
    var built := BuildRequest(apiMethod, token, name, path, params, fileOpens, boundary);
    match built
    case Failure(e) =>
      r := Failure(e);
    case Success(req) =>
      var reply := transport(req);
      match reply
      case None =>
        r := Failure(TransportFailed);
      case Some(resp) =>
        r := CheckResult(resp);
  }

  /** A getUpdates argument is sent only when it is not the empty string. */
  function NonEmpty(s: string): Option<string>
  {
    if s == "" then None else Some(s)
  }

  /** The parameters getUpdates sends, in the order it adds them. */
  function UpdatesFields(offset: string, limit: string, timeout: string): seq<Optionals.Field>
  {
    [ Optionals.Field("offset", NonEmpty(offset)),
      Optionals.Field("limit", NonEmpty(limit)),
      Optionals.Field("timeout", NonEmpty(timeout)) ]
  }

  /**
   * The payload getUpdates builds: offset, limit and timeout are in it exactly when
   * the argument is non-empty, each with the argument unchanged as its only value,
   * and it holds no other key.
   */
  function UpdatesParams(offset: string, limit: string, timeout: string): (p: Values)
    ensures ("offset" in p <==> offset != "") && (offset != "" ==> p["offset"] == [offset])
    ensures ("limit" in p <==> limit != "") && (limit != "" ==> p["limit"] == [limit])
    ensures ("timeout" in p <==> timeout != "") && (timeout != "" ==> p["timeout"] == [timeout])
    ensures p.Keys <= {"offset", "limit", "timeout"}
  {
    var fs := UpdatesFields(offset, limit, timeout);
    assert Optionals.DistinctKeys(fs);
    SentWhenNonEmpty(fs, 0, offset);
    SentWhenNonEmpty(fs, 1, limit);
    SentWhenNonEmpty(fs, 2, timeout);
    UpdatesKeys(offset, limit, timeout);
    AppendAll(map[], Optionals.Present(fs))
  }

  /** One getUpdates argument: its key is in the payload exactly when it is non-empty, holding it alone. */
  lemma SentWhenNonEmpty(fs: seq<Optionals.Field>, i: nat, arg: string)
    requires Optionals.DistinctKeys(fs) && i < |fs| && fs[i].value == NonEmpty(arg)
    ensures var p := AppendAll(map[], Optionals.Present(fs));
      (fs[i].key in p <==> arg != "") && (arg != "" ==> p[fs[i].key] == [arg])
  {
    Optionals.PresentValues(fs, i);
    FromEmpty(Optionals.Present(fs), fs[i].key);
  }

  /** Starting from an empty payload, getUpdates' fields add no key but offset, limit and timeout. */
  lemma UpdatesKeys(offset: string, limit: string, timeout: string)
    ensures AppendAll(map[], Optionals.Present(UpdatesFields(offset, limit, timeout))).Keys
      <= {"offset", "limit", "timeout"}
  {
    var fs := UpdatesFields(offset, limit, timeout);
    AppendAllKeys(map[], Optionals.Present(fs));
    Optionals.PresentKeys(fs);
    forall k | k in Optionals.FieldKeys(fs)
      ensures k in {"offset", "limit", "timeout"}
    {
      var f :| f in fs && f.key == k;
    }
  }

  /**
   * getUpdates: adds each non-empty argument to a fresh payload, posts it as
   * "getUpdates" with no file, and returns the checked result (its decoding into
   * updates is not modelled).
   */
  method GetUpdates(token: string, offset: string, limit: string, timeout: string, boundary: string,
                    transport: Request -> Option<Response>)
    returns (r: Result<Json, Error>)
    ensures r == Deliver(transport(RequestFor("getUpdates", token, "", "", UpdatesParams(offset, limit, timeout),
                                              boundary)))
  {
    var payload := new Payload();
    ghost var fs := UpdatesFields(offset, limit, timeout);
    assert fs == [] + [fs[0]] + [fs[1]] + [fs[2]];
    ghost var done := [];
    if offset != "" {
      payload.Add("offset", offset);
    }
    Optionals.AddEachStep(map[], done, fs[0], payload.values);
    done := done + [fs[0]];
    if limit != "" {
      payload.Add("limit", limit);
    }
    Optionals.AddEachStep(map[], done, fs[1], payload.values);
    done := done + [fs[1]];
    if timeout != "" {
      payload.Add("timeout", timeout);
    }
    Optionals.AddEachStep(map[], done, fs[2], payload.values);
    done := done + [fs[2]];
    Optionals.AddEachIsAppendAll(map[], done);
    r := SendRequest("getUpdates", token, "", "", payload.values, true, boundary, transport);
  }
}
