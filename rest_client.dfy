/**
 * utils/rest.py: the client side of the REST calls.  A call either fails in
 * transport or returns a response, which is then classified: 304 is taken as
 * is, a body that is not JSON or is JSON null is an error, and so is a body
 * whose `_status.success` is false, with `_status.msg` as the error.  The
 * ETag decorator and the test client's URL router are here too.
 */
module RestClient {
  import opened Wrappers
  import opened JsonValues
  import opened Http
  import OD = OrderedDicts

  /** A response as the client receives it: its status code and its body. */
  datatype ServerReply = ServerReply(code: int, body: Body)

  /** The second half of the pair a call returns, when it is not None. */
  datatype Problem =
    | TransportFailure(reason: string)   // the exception requests raised
    | NotJsonBody                        // the JSONDecodeError of res.json()
    | NullBody                           // "response.json() returns None"
    | StatusMessage(msg: string)         // _status.msg of an unsuccessful answer

  /** The pair a call returns: the response, if one came, and the problem, if any. */
  datatype Checked = Checked(res: Option<ServerReply>, problem: Option<Problem>)

  /** What happened on the wire: a response came, or requests raised. */
  datatype Transfer = Delivered(reply: ServerReply) | Failed(reason: string)

  /**
   * _rest_check_response: 304 is returned without reading the body; a body
   * that is not JSON, or is JSON null, is an error; otherwise `_status` and
   * its `success` are looked up (a missing one raises), and an unsuccessful
   * answer's `msg`, which is appended to a string for the log line and so
   * must be a string, is the error.
   */
  function CheckResponse(res: ServerReply): (r: Result<Checked, Exc>)
    ensures r.Ok? ==> r.value.res == Some(res)
    ensures res.code == 304 ==> r == Ok(Checked(Some(res), None))
    ensures res.code != 304 && !res.body.JsonText? ==> r == Ok(Checked(Some(res), Some(NotJsonBody)))
    ensures res.code != 304 && res.body == JsonText(JNull) ==> r == Ok(Checked(Some(res), Some(NullBody)))
    ensures r.Ok? && r.value.problem.None? <==>
              res.code == 304 || (res.body.JsonText? && StatusSucceeded(res.body.value))
    ensures r.Ok? && r.value.problem.Some? && r.value.problem.value.StatusMessage? ==>
              res.body.JsonText? && StatusMessageOf(res.body.value) == Ok(r.value.problem.value.msg)
  {
    if res.code == 304 then Ok(Checked(Some(res), None))
    else if !res.body.JsonText? then Ok(Checked(Some(res), Some(NotJsonBody)))
    else if res.body.value == JNull then Ok(Checked(Some(res), Some(NullBody)))
    else
      var status :- Field(res.body.value, "_status");
      var success :- Field(status, "success");
      if Truthy(success) then Ok(Checked(Some(res), None))
      else
        var msg :- Field(status, "msg");
        if !msg.JStr? then Err(TypeError)
        else Ok(Checked(Some(res), Some(StatusMessage(msg.s))))
  }

  /** The body's `_status.success` is present and true. */
  predicate StatusSucceeded(body: Json) {
    var status := Field(body, "_status");
    status.Ok? && Field(status.value, "success").Ok? && Truthy(Field(status.value, "success").value)
  }

  /** The body's `_status.msg`, when it is a string. */
  function StatusMessageOf(body: Json): Result<string, Exc> {
    var status :- Field(body, "_status");
    var msg :- Field(status, "msg");
    if msg.JStr? then Ok(msg.s) else Err(TypeError)
  }

  /**
   * get, post and put: a transport exception is returned as the problem,
   * with no response; a response is classified by CheckResponse.
   */
  function Send(t: Transfer): (r: Result<Checked, Exc>)
    ensures t.Failed? ==> r == Ok(Checked(None, Some(TransportFailure(t.reason))))
    ensures t.Delivered? ==> r == CheckResponse(t.reply)
    ensures r.Ok? ==> (r.value.res.None? <==> t.Failed?)
  {
    match t
    case Failed(reason) => Ok(Checked(None, Some(TransportFailure(reason))))
    case Delivered(reply) => CheckResponse(reply)
  }

  /** A success answer: `_status` with `success` true. */
  function SuccessBody(): Json {
    JObj([("_status", JObj([("success", JBool(true)), ("msg", JStr("status is ok"))]))])
  }

  /** A body whose `_status.success` is true is no problem, whatever the status code. */
  lemma SuccessIsNoProblem(code: int)
    ensures CheckResponse(ServerReply(code, JsonText(SuccessBody()))) == Ok(Checked(Some(ServerReply(code, JsonText(SuccessBody()))), None))
  {
  }

  /**
   * A failure answer is reported with its message, and a body without
   * `_status` raises instead of being classified.
   */
  lemma FailureCarriesMessage(code: int, msg: string)
    requires code != 304
    ensures var body := JObj([("_status", JObj([("success", JBool(false)), ("msg", JStr(msg))]))]);
            CheckResponse(ServerReply(code, JsonText(body))) == Ok(Checked(Some(ServerReply(code, JsonText(body))), Some(StatusMessage(msg))))
    ensures CheckResponse(ServerReply(code, JsonText(JObj([])))) == Err(KeyError)
  {
    var status := JObj([("success", JBool(false)), ("msg", JStr(msg))]);
    OD.LookupPair(("success", JBool(false)), ("msg", JStr(msg)));
    assert Field(status, "msg") == Ok(JStr(msg));
  }

  /** A header value: a string, or Python's None when `etag=None` is passed by keyword. */
  type HeaderValue = Option<string>

  /** A headers dictionary that the decorator updates in place. */
  class HeaderDict {
    var entries: OD.ODict<string, HeaderValue>

    constructor()
      ensures entries == []
    {
      entries := [];
    }
  }

  /**
   * The headers _set_etag leaves: If-None-Match set to the etag when one
   * was passed by keyword, every other header as it was.
   */
  function WithEtag(headers: OD.ODict<string, HeaderValue>, etag: Option<HeaderValue>): (r: OD.ODict<string, HeaderValue>)
    ensures etag.Some? ==> OD.Lookup(r, "If-None-Match") == Some(etag.value)
    ensures etag.None? ==> r == headers
    ensures forall k :: k != "If-None-Match" ==> OD.Lookup(r, k) == OD.Lookup(headers, k)
  {
    if etag.Some? then OD.Put(headers, "If-None-Match", etag.value)
    else headers
  }

  /**
   * _set_etag: the caller's headers dictionary, or a new empty one when
   * none was given, gets If-None-Match when an etag keyword was passed; the
   * caller's own dictionary is changed in place.
   */
  method SetEtag(given: Option<HeaderDict>, etag: Option<HeaderValue>) returns (h: HeaderDict)
    modifies if given.Some? then {given.value} else {}
    ensures given.Some? ==> h == given.value && h.entries == WithEtag(old(given.value.entries), etag)
    ensures given.None? ==> fresh(h) && h.entries == WithEtag([], etag)
  {
    if given.Some? {
      h := given.value;
    } else {
      h := new HeaderDict();
    }
    if etag.Some? {
      h.entries := WithEtag(h.entries, etag);
    }
  }

  /** put with a JSON payload: the same headers dictionary also gets the JSON Content-Type. */
  method MarkJson(h: HeaderDict)
    modifies h
    ensures h.entries == OD.Put(old(h.entries), "Content-Type", Some("application/json"))
  {
    h.entries := OD.Put(h.entries, "Content-Type", Some("application/json"));
  }

  /** The test client's choice: no client, or a client and the path to ask it for. */
  datatype Selection<C> = NoClient | Selected(client: C, path: string)

  /** The position of the first character of s that is in stops, if any. */
  function FirstOf(s: string, stops: set<char>): (r: Option<nat>)
    ensures r.Some? ==> r.value < |s| && s[r.value] in stops && forall j :: 0 <= j < r.value ==> s[j] !in stops
    ensures r.None? ==> forall j :: 0 <= j < |s| ==> s[j] !in stops
  {
    if s == [] then None
    else if s[0] in stops then Some(0)
    else match FirstOf(s[1..], stops)
      case None => None
      case Some(j) => Some(j + 1)
  }

  /** What `.*` matches at the start of s: everything up to the first newline. */
  function Line(s: string): (r: string)
    ensures r <= s && '\n' !in r
    ensures |r| < |s| ==> s[|r|] == '\n'
  {
    match FirstOf(s, {'\n'})
    case None => s
    case Some(j) => s[..j]
  }

  /**
   * select_client: `re.match(r"test://(.*?)/(.*)", url)`.  The key is the
   * shortest run of characters other than newline up to a '/', the path is
   * what follows up to the first newline; a URL that does not match gives no
   * client, and a key the clients do not have raises KeyError.
   */
  function SelectClient<C>(clients: map<string, C>, url: string): (r: Result<Selection<C>, Exc>)
    ensures r.Ok? && r.value.Selected? ==> |url| > 7 && url[..7] == "test://"
    ensures !(|url| >= 7 && url[..7] == "test://") ==> r == Ok(NoClient)
  {
    if !(|url| >= 7 && url[..7] == "test://") then Ok(NoClient)
    else
      var rest := url[7..];
      match FirstOf(rest, {'/', '\n'})
      case None => Ok(NoClient)
      case Some(j) =>
        if rest[j] == '\n' then Ok(NoClient)
        else
          var key := rest[..j];
          if key !in clients then Err(KeyError)
          else Ok(Selected(clients[key], Line(rest[j + 1..])))
  }

  /**
   * A test URL built from a key without '/' or newline and a path without
   * newline routes to that key's client with that path, and raises KeyError
   * for a key the clients do not have.
   */
  lemma SelectRoundTrip<C>(clients: map<string, C>, key: string, path: string)
    requires '/' !in key && '\n' !in key && '\n' !in path
    ensures key in clients ==> SelectClient(clients, "test://" + key + "/" + path) == Ok(Selected(clients[key], path))
    ensures key !in clients ==> SelectClient(clients, "test://" + key + "/" + path) == Err(KeyError)
  {
    var url := "test://" + key + "/" + path;
    assert url[..7] == "test://";
    var rest := url[7..];
    assert rest == key + "/" + path;
    assert forall c <- key :: c !in {'/', '\n'};
    FirstAfter(key, path, {'/', '\n'});
    assert FirstOf(rest, {'/', '\n'}) == Some(|key|);
    assert rest[..|key|] == key;
    assert rest[|key| + 1..] == path;
    LineWhole(path);
  }

  /** The first stop in key + "/" + path is the '/' after the key. */
  lemma {:induction false} FirstAfter(key: string, path: string, stops: set<char>)
    requires '/' in stops && forall c <- key :: c !in stops
    ensures FirstOf(key + "/" + path, stops) == Some(|key|)
  {
    if key != [] {
      assert (key + "/" + path)[1..] == key[1..] + "/" + path;
      assert forall c <- key[1..] :: c in key;
      FirstAfter(key[1..], path, stops);
    }
  }

  /** A path without a newline is matched whole. */
  lemma LineWhole(s: string)
    requires '\n' !in s
    ensures Line(s) == s
  {
  }
}
