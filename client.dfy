/**
 * The thin HTTP client of python-examples/client.py: `JsonServerClient`
 * maps each CRUD operation onto one request against
 * `<base>/api/<db>[/<collection>[/<id>]]`, decodes a successful response and
 * turns a failed one into `JsonServerError`.
 *
 * The network is the parameter `server`: the reply the transport delivers
 * for a request (or the transport's own failure). Python exceptions are the
 * values of `PyError`; an operation returns `Outcome`, its value or the
 * exception it raises.
 */
module Client {
  import opened Wrappers
  import opened PyText
  import opened JsonModel

  /** What a `JsonServerError` carries besides status and message: the decoded JSON or the raw text. */
  datatype Payload = JsonPayload(json: Json) | TextPayload(text: string)

  /** The exceptions that can leave the client and the shell's handlers. */
  datatype PyError =
    | JsonServerError(status: int, message: string, payload: Payload)
    | ValueError(message: string)
    | IndexError
    | KeyError(key: string)
    | TypeError
    | AttributeError
    | TransportError

  /** Either the value an operation returns, or the exception it raises. */
  datatype Outcome<+T> = Ok(value: T) | Raised(error: PyError)

  /** What `_request` returns: `None`, a decoded JSON value, or the raw text. */
  datatype Value = NoneValue | JsonValue(json: Json) | TextValue(text: string)

  datatype Verb = GET | POST | PUT | PATCH | DELETE

  /** One call of `session.request(...)`, with the headers the session attaches. */
  datatype HttpRequest = HttpRequest(
    verb: Verb,
    url: string,
    params: Option<map<string, string>>,
    body: Option<Json>,
    headers: map<string, string>,
    timeout: real)

  /**
   * A response: its status, its Content-Type header ("" when absent), its
   * text, what `resp.json()` makes of that text, and its reason phrase.
   */
  datatype HttpResponse = HttpResponse(
    status: int,
    contentType: string,
    text: string,
    json: Decoded,
    reason: Option<string>)

  /**
   * What the transport delivers: a response; a refusal of the URL before
   * anything is sent (requests' `MissingSchema`, `InvalidSchema` and
   * `InvalidURL`, which are `ValueError`s); or a connection failure or timeout.
   */
  datatype Reply = Received(response: HttpResponse) | Refused(message: string) | TransportFailed

  /** The remote server as seen through the transport. */
  type Server = HttpRequest -> Reply

  /** The operations of `JsonServerClient`, with the arguments they are called with. */
  datatype Op =
    | ListOp(db: string, collection: string, params: Option<map<string, string>>)
    | GetOp(db: string, collection: string, id: Json)
    | CreateOp(db: string, collection: string, body: Json)
    | ReplaceOp(db: string, collection: string, id: Json, body: Json)
    | PatchOp(db: string, collection: string, id: Json, body: Json)
    | DeleteOp(db: string, collection: string, id: Json)
    | DbOp(db: string)

  /** `resp.ok` in requests: false exactly for 4xx and 5xx statuses. */
  predicate IsOk(status: int) {
    !(400 <= status < 600)
  }

  /** The URL `_url` builds from the base URL, "api", the database and the segments. */
  function UrlOf(baseUrl: string, db: string, segments: seq<string>): string {
    Join("/", StripSlashes([baseUrl, "api", db] + segments))
  }

  /** `[part.strip("/") for part in parts]`. */
  function StripSlashes(parts: seq<string>): (r: seq<string>)
    ensures |r| == |parts| && forall i :: 0 <= i < |parts| ==> r[i] == Strip(parts[i], Slash)
  {
    seq(|parts|, i requires 0 <= i < |parts| => Strip(parts[i], Slash))
  }

  /** The request each operation sends, for a client with this base URL, session headers and timeout. */
  function RequestFor(baseUrl: string, headers: map<string, string>, timeout: real, op: Op): HttpRequest {
    match op
    case ListOp(db, collection, params) =>
      HttpRequest(GET, UrlOf(baseUrl, db, [collection]), params, None, headers, timeout)
    case GetOp(db, collection, id) =>
      HttpRequest(GET, UrlOf(baseUrl, db, [collection, Str(id)]), None, None, headers, timeout)
    case CreateOp(db, collection, body) =>
      HttpRequest(POST, UrlOf(baseUrl, db, [collection]), None, Some(body), headers, timeout)
    case ReplaceOp(db, collection, id, body) =>
      HttpRequest(PUT, UrlOf(baseUrl, db, [collection, Str(id)]), None, Some(body), headers, timeout)
    case PatchOp(db, collection, id, body) =>
      HttpRequest(PATCH, UrlOf(baseUrl, db, [collection, Str(id)]), None, Some(body), headers, timeout)
    case DeleteOp(db, collection, id) =>
      HttpRequest(DELETE, UrlOf(baseUrl, db, [collection, Str(id)]), None, None, headers, timeout)
    case DbOp(db) =>
      HttpRequest(GET, UrlOf(baseUrl, db, []), None, None, headers, timeout)
  }

  /** `_raise_error`: the exception a failed response is turned into. */
  function ErrorOf(resp: HttpResponse): (e: PyError)
    ensures e.AttributeError? <==> resp.json.Parsed? && !resp.json.value.JObject?
    ensures !e.AttributeError? ==> e.JsonServerError? && e.status == resp.status
    ensures e.JsonServerError? && resp.json.Parsed? ==> e.payload == JsonPayload(resp.json.value)
    ensures e.JsonServerError? && resp.json.Malformed? ==> e.payload == TextPayload(resp.text)
  {
    match resp.json
    case Parsed(payload) =>
      if payload.JObject? then
        var error := Get(payload.fields, "error");
        var message := if error.Some? && Truthy(error.value) then error.value else payload;
        JsonServerError(resp.status, Str(message), JsonPayload(payload))
      else
        // `payload.get` does not exist on a list, string, number, bool or None
        AttributeError
    case Malformed(_) =>
      var message := if resp.text != "" then resp.text else ReasonText(resp.reason);
      JsonServerError(resp.status, message, TextPayload(resp.text))
  }

  /** `str(resp.reason)`. */
  function ReasonText(reason: Option<string>): string {
    match reason
    case Some(r) => r
    case None => "None"
  }

  /** `_request` once the transport has answered: failure first, then 204, then JSON, then text. */
  function Complete(reply: Reply): (r: Outcome<Value>)
    ensures reply.TransportFailed? ==> r == Raised(TransportError)
    ensures reply.Refused? ==> r == Raised(ValueError(reply.message))
    ensures reply.Received? && !IsOk(reply.response.status) ==> r == Raised(ErrorOf(reply.response))
    ensures r.Ok? ==> reply.Received? && IsOk(reply.response.status)
  {
    match reply
    case TransportFailed => Raised(TransportError)
    case Refused(m) => Raised(ValueError(m))
    case Received(resp) =>
      if !IsOk(resp.status) then Raised(ErrorOf(resp))
      else if resp.status == 204 then Ok(NoneValue)
      else if StartsWith(resp.contentType, "application/json") then
        match resp.json
        case Parsed(j) => Ok(JsonValue(j))
        // requests' JSONDecodeError is a ValueError
        case Malformed(m) => Raised(ValueError(m))
      else Ok(TextValue(resp.text))
  }

  /** What an operation makes of `_request`'s outcome: `delete` drops the value, the others return it. */
  function Returns(op: Op, out: Outcome<Value>): Outcome<Value> {
    if op.DeleteOp? && out.Ok? then Ok(NoneValue) else out
  }

  /** What an operation returns once the transport has answered its request. */
  function Respond(op: Op, reply: Reply): (r: Outcome<Value>)
    ensures op.DeleteOp? && r.Ok? ==> r.value == NoneValue
    ensures r.Raised? <==> Complete(reply).Raised?
    ensures !op.DeleteOp? || r.Raised? ==> r == Complete(reply)
  {
    Returns(op, Complete(reply))
  }

  /**
   * The session's headers once `__init__` has added the bearer token to them.
   * `Session.headers` compares names without regard to case, so `update`
   * replaces any `authorization` header, whatever its spelling, by one
   * spelled `Authorization`.
   */
  function WithAuthorization(headers: map<string, string>, token: string): (r: map<string, string>)
    ensures forall name :: name in r <==> name == "Authorization" || (name in headers && Lower(name) != "authorization")
    ensures "Authorization" in r && r["Authorization"] == "Bearer " + token
    ensures forall name :: name in r && name != "Authorization" ==> r[name] == headers[name]
  {
    var others := map name | name in headers && Lower(name) != "authorization" :: headers[name];
    others["Authorization" := "Bearer " + token]
  }

  /**
   * `[item["id"] for item in listed]` in `db_ids`. Iterating a dict or a
   * string yields strings, which cannot be indexed by "id"; only an empty
   * one gets through.
   */
  function ItemIds(listed: Value): Result<seq<Json>, PyError> {
    match listed
    case NoneValue => Failure(TypeError)
    case TextValue(t) => if t == "" then Success([]) else Failure(TypeError)
    case JsonValue(j) =>
      match j
      case JArray(items) => IdsOfItems(items)
      case JObject(fields) => if fields == [] then Success([]) else Failure(TypeError)
      case JString(t) => if t == "" then Success([]) else Failure(TypeError)
      case _ => Failure(TypeError)
  }

  /** `item["id"]` for each list item in turn; the first item that fails raises. */
  function IdsOfItems(items: seq<Json>): Result<seq<Json>, PyError>
    decreases |items|
  {
    if items == [] then Success([])
    else
      var first :=
        match items[0]
        case JObject(fields) =>
          (match Get(fields, "id")
           case Some(id) => Success(id)
           case None => Failure(KeyError("id")))
        case _ => Failure(TypeError);
      match first
      case Failure(e) => Failure(e)
      case Success(id) =>
        match IdsOfItems(items[1..])
        case Failure(e) => Failure(e)
        case Success(rest) => Success([id] + rest)
  }

  /**
   * `db_ids` given what its `list` call produced: the ids, `[]` on a 404,
   * `None` (the function falls off its end) on any other `JsonServerError`.
   */
  function IdsOf(listed: Outcome<Value>): Outcome<Option<seq<Json>>> {
    match listed
    case Raised(e) =>
      if e.JsonServerError? then
        if e.status == 404 then Ok(Some([])) else Ok(None)
      else Raised(e)
    case Ok(v) =>
      match ItemIds(v)
      case Success(ids) => Ok(Some(ids))
      case Failure(e) => Raised(e)
  }

  /** `"/".join(part.strip("/") for part in parts)`, part by part. */
  method JoinStripped(parts: seq<string>) returns (joined: string)
    ensures joined == Join("/", StripSlashes(parts))
  {
    if parts == [] {
      return "";
    }
    ghost var stripped := StripSlashes(parts);
    joined := Strip(parts[0], Slash);
    for k := 1 to |parts|
      invariant joined == Join("/", stripped[..k])
    {
      JoinSnoc("/", stripped, k);
      joined := joined + "/" + Strip(parts[k], Slash);
    }
    assert stripped[..|parts|] == stripped;
  }

  /** The `requests.Session` a client sends through; `__init__` adds to its headers. */
  class HttpSession {
    var headers: map<string, string>

    constructor ()
      ensures headers == map[]
    {
      headers := map[];
    }
  }

  class JsonServerClient {
    const baseUrl: string
    const timeout: real
    const session: HttpSession
    ghost const token: string

    /** `__init__` past its token check: the base URL loses its trailing slashes, the session gains the bearer token. */
    constructor (baseUrl: string, token: string, timeout: real, session: HttpSession)
      requires token != ""
      modifies session
      ensures this.baseUrl == RStrip(baseUrl, Slash) && this.timeout == timeout
      ensures this.session == session && this.token == token
      ensures session.headers == WithAuthorization(old(session.headers), token)
    {
      this.baseUrl := RStrip(baseUrl, Slash);
      this.timeout := timeout;
      this.session := session;
      this.token := token;
      session.headers := WithAuthorization(session.headers, token);
    }

    /** `_url`: the path parts collected in a list, then each stripped of '/' and joined by '/'. */
    method Url(db: string, segments: seq<string>) returns (url: string)
      ensures url == UrlOf(baseUrl, db, segments)
    {
      var pathParts := [baseUrl, "api", db];
      for i := 0 to |segments|
        invariant pathParts == [baseUrl, "api", db] + StripSlashes(segments[..i])
      {
        StripSlashesSnoc(segments, i);
        pathParts := pathParts + [Strip(segments[i], Slash)];
      }
      assert segments[..|segments|] == segments;
      StripSlashesTwice([baseUrl, "api", db], segments);
      url := JoinStripped(pathParts);
    }

    /** `_request`: one request through the session, then `Complete`'s reading of its reply. */
    method Request(verb: Verb, url: string, params: Option<map<string, string>>, body: Option<Json>, server: Server)
      returns (r: Outcome<Value>, ghost sent: HttpRequest)
      ensures sent == HttpRequest(verb, url, params, body, session.headers, timeout)
      ensures r == Complete(server(HttpRequest(verb, url, params, body, session.headers, timeout)))
    {
      var request := HttpRequest(verb, url, params, body, session.headers, timeout);
      sent := request;
      r := Complete(server(request));
    }

    /** `list`: GET on the collection, the filter as query parameters. */
    method List(db: string, collection: string, params: Option<map<string, string>>, server: Server)
      returns (r: Outcome<Value>, ghost sent: HttpRequest)
      ensures sent == RequestFor(baseUrl, session.headers, timeout, ListOp(db, collection, params))
      ensures r == Respond(ListOp(db, collection, params), server(RequestFor(baseUrl, session.headers, timeout, ListOp(db, collection, params))))
    {
      var url := Url(db, [collection]);
      r, sent := Request(GET, url, params, None, server);
    }

    /** `get`: GET on the item, the id turned into text with `str`. */
    method Get(db: string, collection: string, id: Json, server: Server)
      returns (r: Outcome<Value>, ghost sent: HttpRequest)
      ensures sent == RequestFor(baseUrl, session.headers, timeout, GetOp(db, collection, id))
      ensures r == Respond(GetOp(db, collection, id), server(RequestFor(baseUrl, session.headers, timeout, GetOp(db, collection, id))))
    {
      var url := Url(db, [collection, Str(id)]);
      r, sent := Request(GET, url, None, None, server);
    }

    /** `create`: POST on the collection with the JSON body. */
    method Create(db: string, collection: string, body: Json, server: Server)
      returns (r: Outcome<Value>, ghost sent: HttpRequest)
      ensures sent == RequestFor(baseUrl, session.headers, timeout, CreateOp(db, collection, body))
      ensures r == Respond(CreateOp(db, collection, body), server(RequestFor(baseUrl, session.headers, timeout, CreateOp(db, collection, body))))
    {
      var url := Url(db, [collection]);
      r, sent := Request(POST, url, None, Some(body), server);
    }

    /** `replace`: PUT on the item with the whole new document. */
    method Replace(db: string, collection: string, id: Json, body: Json, server: Server)
      returns (r: Outcome<Value>, ghost sent: HttpRequest)
      ensures sent == RequestFor(baseUrl, session.headers, timeout, ReplaceOp(db, collection, id, body))
      ensures r == Respond(ReplaceOp(db, collection, id, body), server(RequestFor(baseUrl, session.headers, timeout, ReplaceOp(db, collection, id, body))))
    {
      var url := Url(db, [collection, Str(id)]);
      r, sent := Request(PUT, url, None, Some(body), server);
    }

    /** `patch`: PATCH on the item with the fields to change. */
    method Patch(db: string, collection: string, id: Json, body: Json, server: Server)
      returns (r: Outcome<Value>, ghost sent: HttpRequest)
      ensures sent == RequestFor(baseUrl, session.headers, timeout, PatchOp(db, collection, id, body))
      ensures r == Respond(PatchOp(db, collection, id, body), server(RequestFor(baseUrl, session.headers, timeout, PatchOp(db, collection, id, body))))
    {
      var url := Url(db, [collection, Str(id)]);
      r, sent := Request(PATCH, url, None, Some(body), server);
    }

    /** `delete`: DELETE on the item; returns `None` whatever the body. */
    method Delete(db: string, collection: string, id: Json, server: Server)
      returns (r: Outcome<Value>, ghost sent: HttpRequest)
      ensures sent == RequestFor(baseUrl, session.headers, timeout, DeleteOp(db, collection, id))
      ensures r == Respond(DeleteOp(db, collection, id), server(RequestFor(baseUrl, session.headers, timeout, DeleteOp(db, collection, id))))
    {
      var url := Url(db, [collection, Str(id)]);
      var out;
      out, sent := Request(DELETE, url, None, None, server);
      r := Returns(DeleteOp(db, collection, id), out);
    }

    /** `db`: GET on the database root. */
    method Db(db: string, server: Server)
      returns (r: Outcome<Value>, ghost sent: HttpRequest)
      ensures sent == RequestFor(baseUrl, session.headers, timeout, DbOp(db))
      ensures r == Respond(DbOp(db), server(RequestFor(baseUrl, session.headers, timeout, DbOp(db))))
    {
      var url := Url(db, []);
      r, sent := Request(GET, url, None, None, server);
    }

    /** `db_ids`: the ids of a collection's items, with its 404 rule. */
    method DbIds(db: string, collection: string, server: Server)
      returns (r: Outcome<Option<seq<Json>>>, ghost sent: HttpRequest)
      ensures sent == RequestFor(baseUrl, session.headers, timeout, ListOp(db, collection, None))
      ensures r == IdsOf(Respond(ListOp(db, collection, None), server(RequestFor(baseUrl, session.headers, timeout, ListOp(db, collection, None)))))
    {
      var listed;
      listed, sent := List(db, collection, None, server);
      r := IdsOf(listed);
    }
  }

  /**
   * `JsonServerClient(base_url, token, timeout, session)`: refused with
   * `ValueError("token is required")` for an empty token; otherwise a client
   * over the given session, or over a new one when none is given.
   */
  method NewClient(baseUrl: string, token: string, timeout: real, session: Option<HttpSession>)
    returns (r: Result<JsonServerClient, PyError>)
    modifies if session.Some? then {session.value} else {}
    ensures token == "" ==> r == Failure(ValueError("token is required"))
    ensures token == "" && session.Some? ==> session.value.headers == old(session.value.headers)
    ensures token != "" ==> r.Success? && r.value.baseUrl == RStrip(baseUrl, Slash)
                            && r.value.timeout == timeout && r.value.token == token
    ensures token != "" && session.Some? ==>
              r.value.session == session.value
              && session.value.headers == WithAuthorization(old(session.value.headers), token)
    ensures token != "" && session.None? ==>
              fresh(r.value.session) && r.value.session.headers == WithAuthorization(map[], token)
  {
    if token == "" {
      return Failure(ValueError("token is required"));
    }
    var s: HttpSession;
    if session.Some? {
      s := session.value;
    } else {
      s := new HttpSession();
    }
    var client := new JsonServerClient(baseUrl, token, timeout, s);
    r := Success(client);
  }

  /** Stripping one more segment extends the stripped list by one. */
  lemma StripSlashesSnoc(segments: seq<string>, i: nat)
    requires i < |segments|
    ensures StripSlashes(segments[..i + 1]) == StripSlashes(segments[..i]) + [Strip(segments[i], Slash)]
  {
  }

  /** Joining one more part appends the separator and that part. */
  lemma JoinSnoc(sep: string, parts: seq<string>, k: nat)
    requires 1 <= k < |parts|
    ensures Join(sep, parts[..k + 1]) == Join(sep, parts[..k]) + sep + parts[k]
  {
    assert parts[..k + 1][..k] == parts[..k];
  }

  /** Stripping the tail parts once more, as `_url` does, changes nothing. */
  lemma StripSlashesTwice(head: seq<string>, tail: seq<string>)
    ensures StripSlashes(head + StripSlashes(tail)) == StripSlashes(head + tail)
  {
    forall j | 0 <= j < |tail|
      ensures Strip(StripSlashes(tail)[j], Slash) == Strip(tail[j], Slash)
    {
      StripIdempotent(tail[j], Slash);
    }
    assert forall k :: |head| <= k < |head| + |tail| ==> (head + tail)[k] == tail[k - |head|];
  }

  /** Stripping twice is stripping once. */
  lemma StripIdempotent(s: string, cls: CharClass)
    ensures Strip(Strip(s, cls), cls) == Strip(s, cls)
  {
    var r := Strip(s, cls);
    if r != [] {
      assert StripStart(r, cls) == 0;
      assert StripEnd(r, cls) == |r|;
    }
  }
}
