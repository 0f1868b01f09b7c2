/**
 * Requests and responses as the Flask handlers see them.  A request carries
 * its method, its Content-Type header and its body; a response carries its
 * status code, its JSON body and its ETag header.
 */
module Http {
  import opened Wrappers
  import opened JsonValues

  datatype Method = GET | POST | PUT | DELETE

  /** The request body: UTF-8 text holding a JSON value, other UTF-8 text, or bytes that are not UTF-8. */
  datatype Body = JsonText(value: Json) | NotJson | NotUtf8

  datatype Request = Request(verb: Method, contentType: Option<string>, body: Body)

  datatype Response = Response(code: int, body: Json, etag: Option<string>)

  /** A 200 response or an error response without an ETag. */
  function Reply(code: int, body: Json): Response {
    Response(code, body, None)
  }

  /**
   * What the framework sends when a handler raises: a 500 page whose body
   * the model does not describe.
   */
  const InternalError: Response := Reply(500, JNull)

  /** What the framework sends when `request.json` raises BadRequest outside json_input. */
  const BadRequestPage: Response := Reply(400, JNull)

  /**
   * A parsed If-None-Match header (werkzeug's ETags): strong tags, weak tags,
   * or the star.  werkzeug keeps the tags in frozensets, so the order of
   * several tags is not fixed; the model takes the order given.
   */
  datatype ETags = ETags(strong: seq<string>, weak: seq<string>, star: bool)

  function JoinWith(sep: string, parts: seq<string>): string {
    if parts == [] then ""
    else if |parts| == 1 then parts[0]
    else parts[0] + sep + JoinWith(sep, parts[1..])
  }

  /** Each tag in double quotes, after the given prefix. */
  function QuoteAll(prefix: string, tags: seq<string>): (r: seq<string>)
    ensures |r| == |tags|
  {
    if tags == [] then [] else [prefix + "\"" + tags[0] + "\""] + QuoteAll(prefix, tags[1..])
  }

  /** `str(etags)`: "*", or the quoted strong tags then the W/-prefixed weak tags, comma separated. */
  function ETagsText(e: ETags): string {
    if e.star then "*"
    else JoinWith(", ", QuoteAll("", e.strong) + QuoteAll("W/", e.weak))
  }

  /** Python's `s[1:-1]`. */
  function DropEnds(s: string): (r: string)
    ensures |s| >= 2 ==> r == s[1..|s| - 1]
    ensures |s| < 2 ==> r == ""
  {
    if |s| < 2 then "" else s[1..|s| - 1]
  }

  function Lower(s: string): string {
    seq(|s|, i requires 0 <= i < |s| => if 'A' <= s[i] <= 'Z' then s[i] - 'A' + 'a' else s[i])
  }

  function TrimSpaces(s: string): string
    decreases |s|
  {
    if s != [] && s[0] == ' ' then TrimSpaces(s[1..])
    else if s != [] && s[|s| - 1] == ' ' then TrimSpaces(s[..|s| - 1])
    else s
  }

  function BeforeSemicolon(s: string): string {
    if s == [] then [] else if s[0] == ';' then [] else [s[0]] + BeforeSemicolon(s[1..])
  }

  /** The media type of a Content-Type header, without parameters, lower-cased. */
  function Mimetype(contentType: Option<string>): string {
    if contentType.None? then "" else Lower(TrimSpaces(BeforeSemicolon(contentType.value)))
  }

  /** Flask's `request.is_json`: application/json or an application/...+json type. */
  predicate IsJsonMimetype(contentType: Option<string>) {
    var m := Mimetype(contentType);
    m == "application/json"
    || (|m| >= 17 && m[..12] == "application/" && m[|m| - 5..] == "+json")
  }

  /**
   * Flask's `request.json`: None for a non-JSON content type or for the JSON
   * literal null, the decoded value otherwise; a JSON content type with a body
   * that does not decode raises BadRequest (the Err case).
   */
  function RequestJson(req: Request): (r: Result<Option<Json>, ()>)
    ensures r.Err? <==> IsJsonMimetype(req.contentType) && !req.body.JsonText?
    ensures r == Ok(None) <==>
              !IsJsonMimetype(req.contentType) || req.body == JsonText(JNull)
  {
    if !IsJsonMimetype(req.contentType) then Ok(None)
    else
      match req.body
      case JsonText(v) => if v == JNull then Ok(None) else Ok(Some(v))
      case _ => Err(())
  }
}

/** The status dictionaries every handler answers with (`ResponseStatus`). */
module ResponseStatus {
  import opened Wrappers
  import OD = OrderedDicts
  import opened JsonValues

  function Status(success: bool, msg: string): Json {
    JObj([("success", JBool(success)), ("msg", JStr(msg))])
  }

  const Success: Json := Status(true, "status is ok")
  const NotModified: Json := Status(false, "resource is not modified")
  const NotFound: Json := Status(false, "resource not found")
  const Failed: Json := Status(false, "action is failed")
  const NotImplemented: Json := Status(false, "this function is not implemented yet")

  /** `jsonify(_status=status)`. */
  function StatusBody(status: Json): Json {
    JObj([("_status", status)])
  }

  /** `jsonify(_status=status, key=value)`. */
  function StatusBodyWith(status: Json, key: string, value: Json): Json {
    JObj([("_status", status), (key, value)])
  }

  /** The value stored beside the status can be read back under its key. */
  lemma StatusBodyWithField(status: Json, key: string, value: Json)
    requires key != "_status"
    ensures Field(StatusBodyWith(status, key, value), key) == Ok(value)
  {
    var fields := [("_status", status), (key, value)];
    assert fields[1..] == [(key, value)];
    assert OD.Lookup([(key, value)], key) == Some(value);
    assert OD.Lookup(fields, key) == Some(value);
  }

  /** `make_error(msg)`: a failure status carrying the given message. */
  function MakeError(msg: string): (r: Json)
    ensures Field(r, "success") == Ok(JBool(false))
    ensures Field(r, "msg") == Ok(JStr(msg))
    ensures r.JObj? && |r.fields| == 2
  {
    var r := Status(false, msg);
    assert r.fields[1..] == [("msg", JStr(msg))];
    assert r.fields[0].0 != "msg" by { assert "success"[0] != "msg"[0]; }
    assert OD.Lookup(r.fields, "msg") == OD.Lookup(r.fields[1..], "msg");
    r
  }

  /**
   * Only Success reports success: every other constant, and every error made
   * by make_error, has a false "success" field.
   */
  lemma OnlySuccessSucceeds(msg: string)
    ensures Field(Success, "success") == Ok(JBool(true))
    ensures Field(Success, "msg") == Ok(JStr("status is ok"))
    ensures Field(NotFound, "msg") == Ok(JStr("resource not found"))
    ensures forall s :: s in {NotModified, NotFound, Failed, NotImplemented, MakeError(msg)} ==>
              Field(s, "success") == Ok(JBool(false))
  {
  }
}

/** The request checks that run before a handler. */
module RequestContract {
  import opened Wrappers
  import opened JsonValues
  import opened Http
  import ResponseStatus

  /** The outcome of a check: run the handler, or answer without running it. */
  datatype Gate = Pass | Answer(resp: Response)

  function FailedWith(msg: string): Json {
    JObj([("result", JStr("failed")), ("msg", JStr(msg))])
  }

  const JsonRequired: Response := Reply(406, FailedWith("application/json required"))
  const CannotDecode: Response := Reply(400, FailedWith("param couldn't decode to json"))

  /**
   * The `json_input` decorator.  The copies in troops/utils.py and
   * troops/common.py first print the body decoded as UTF-8, which raises for
   * bytes that are not UTF-8 (printsBody); the copies in utils/helpers.py
   * and rest_impl/utils/helpers.py do not.
   */
  function JsonInputGate(req: Request, printsBody: bool): (r: Gate)
    ensures req.verb !in {PUT, POST} ==> r == Pass
    ensures req.verb in {PUT, POST} ==>
              (r == Pass <==>
                 IsJsonMimetype(req.contentType) && req.body.JsonText? && req.body.value != JNull)
    ensures req.verb in {PUT, POST} && printsBody && req.body.NotUtf8? ==>
              r == Answer(InternalError)
    ensures req.verb in {PUT, POST} && !(printsBody && req.body.NotUtf8?) ==>
              (r == Answer(JsonRequired) <==>
                 !IsJsonMimetype(req.contentType) || req.body == JsonText(JNull))
              && (r == Answer(CannotDecode) <==>
                    IsJsonMimetype(req.contentType) && !req.body.JsonText?)
  {
    if req.verb != PUT && req.verb != POST then Pass
    else if printsBody && req.body.NotUtf8? then Answer(InternalError)
    else
      match RequestJson(req)
      case Err(_) => Answer(CannotDecode)
      case Ok(None) => Answer(JsonRequired)
      case Ok(Some(_)) => Pass
  }

  /**
   * The printing copies of `json_input` decide exactly as the quiet ones,
   * except on a PUT or POST whose body is not UTF-8.
   */
  lemma PrintingDiffersOnlyOnNotUtf8(req: Request)
    ensures JsonInputGate(req, true) != JsonInputGate(req, false) <==>
              req.verb in {PUT, POST} && req.body.NotUtf8?
  {
  }

  /** The quiet copies never answer an internal error of their own. */
  lemma QuietGateNeverFails(req: Request)
    ensures JsonInputGate(req, false) != Answer(InternalError)
  {
  }

  const SubordinateNotFound: Response :=
    Reply(404, ResponseStatus.StatusBody(ResponseStatus.MakeError("The subordinate is not found")))

  /**
   * The `access_subordinate` decorator of the REST controllers: an id that is
   * not registered answers 404 before the handler runs.
   */
  function AccessSubordinate(registered: bool): (r: Gate)
    ensures r == Pass <==> registered
    ensures !registered ==> r == Answer(SubordinateNotFound)
  {
    if registered then Pass else Answer(SubordinateNotFound)
  }

  /**
   * The DELETE handlers of the leader and the recruiter: success when the
   * model's removal returned a truthy value, 404 NotFound otherwise.
   */
  function RemovalReply(removed: Json): (r: Response)
    ensures r.code == 200 <==> Truthy(removed)
    ensures r.code == 200 ==> r.body == ResponseStatus.StatusBody(ResponseStatus.Success)
    ensures r.code != 200 ==> r == Reply(404, ResponseStatus.StatusBody(ResponseStatus.NotFound))
  {
    if Truthy(removed) then Reply(200, ResponseStatus.StatusBody(ResponseStatus.Success))
    else Reply(404, ResponseStatus.StatusBody(ResponseStatus.NotFound))
  }

  /** The outcome of common.py's `get_dict`. */
  datatype DictOutcome = Parsed(value: Json) | Rejected(resp: Response)

  /**
   * `get_dict`: the Content-Type header must be exactly "application/json";
   * only then is the body decoded.  A missing header and a body that is not
   * UTF-8 raise, which the framework answers as an internal error.
   */
  function GetDict(req: Request): (r: DictOutcome)
    ensures req.contentType != Some("application/json") ==> r.Rejected?
    ensures req.contentType.Some? && req.contentType != Some("application/json") ==>
              r == Rejected(Reply(406, JObj([("res", JStr("application/json required"))])))
    ensures r.Parsed? <==> req.contentType == Some("application/json") && req.body.JsonText?
    ensures r.Parsed? ==> r.value == req.body.value
    ensures req.contentType == Some("application/json") && req.body.NotJson? ==>
              r == Rejected(Reply(400, JObj([("error", JStr("param couldn't decode to json"))])))
  {
    if req.contentType.None? then Rejected(InternalError)
    else if req.contentType.value != "application/json" then
      Rejected(Reply(406, JObj([("res", JStr("application/json required"))])))
    else
      match req.body
      case NotUtf8 => Rejected(InternalError)
      case NotJson => Rejected(Reply(400, JObj([("error", JStr("param couldn't decode to json"))])))
      case JsonText(v) => Parsed(v)
  }
}
