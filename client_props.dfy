/**
 * What python-examples/client.py promises its callers, proved of the
 * `Client` model: the shape of the URLs `_url` builds, the request each
 * operation sends, the order in which `_request` reads a response, the
 * message rules of `_raise_error` and the outcomes of `db_ids`.
 */
module ClientProps {
  import opened Wrappers
  import opened PyText
  import opened JsonModel
  import opened Client
  import opened TextProps

  // ---------------------------------------------------------------------
  // URLs

  /** A string whose two ends are not `cls` characters is its own strip. */
  lemma StripKeeps(s: string, cls: CharClass)
    requires s == [] || (!In(s[0], cls) && !In(s[|s| - 1], cls))
    ensures Strip(s, cls) == s
  {
  }

  /** Stripping each part of a concatenation is stripping each half. */
  lemma StripSlashesAppend(a: seq<string>, b: seq<string>)
    ensures StripSlashes(a + b) == StripSlashes(a) + StripSlashes(b)
  {
    assert forall k :: |a| <= k < |a| + |b| ==> (a + b)[k] == b[k - |a|];
  }

  /** Joining stripped parts of a concatenation joins the two halves' joins with one '/'. */
  lemma JoinStrippedAppend(a: seq<string>, b: seq<string>)
    requires a != [] && b != []
    ensures Join("/", StripSlashes(a + b)) == Join("/", StripSlashes(a)) + "/" + Join("/", StripSlashes(b))
  {
    StripSlashesAppend(a, b);
    JoinAppend("/", StripSlashes(a), StripSlashes(b));
  }

  /** Joining one stripped part is that part. */
  lemma JoinStrippedOne(x: string)
    ensures Join("/", StripSlashes([x])) == Strip(x, Slash)
  {
    assert StripSlashes([x]) == [Strip(x, Slash)];
  }

  /**
   * Every URL `_url` builds is the base, "api" and the database, each
   * stripped of its slashes and joined by '/', followed by each stripped
   * segment behind its own '/'.
   */
  lemma UrlShape(baseUrl: string, db: string, segments: seq<string>)
    ensures UrlOf(baseUrl, db, segments)
         == Strip(baseUrl, Slash) + "/api/" + Strip(db, Slash)
            + (if segments == [] then "" else "/" + Join("/", StripSlashes(segments)))
  {
    var head := StripSlashes([baseUrl, "api", db]);
    UrlHead(baseUrl, db, head);
    if segments == [] {
      assert [baseUrl, "api", db] + segments == [baseUrl, "api", db];
    } else {
      var tail := StripSlashes(segments);
      StripSlashesAppend([baseUrl, "api", db], segments);
      assert UrlOf(baseUrl, db, segments) == Join("/", head + tail);
      JoinAppend("/", head, tail);
    }
  }

  /** The fixed head of every URL: base, "api" and db joined by '/'. */
  lemma UrlHead(baseUrl: string, db: string, head: seq<string>)
    requires head == StripSlashes([baseUrl, "api", db])
    ensures head != [] && Join("/", head) == Strip(baseUrl, Slash) + "/api/" + Strip(db, Slash)
  {
    StripKeeps("api", Slash);
    assert head == [Strip(baseUrl, Slash), "api", Strip(db, Slash)];
    assert head[..2][..1] == [head[0]];
    assert Join("/", head[..2]) == Strip(baseUrl, Slash) + "/api";
  }

  /** The URL of an item is the URL of its collection, '/', and `str(id)` stripped of slashes. */
  lemma ItemUrl(baseUrl: string, db: string, collection: string, id: Json)
    ensures UrlOf(baseUrl, db, [collection, Str(id)])
         == UrlOf(baseUrl, db, [collection]) + "/" + Strip(Str(id), Slash)
  {
    var head := [baseUrl, "api", db] + [collection];
    assert [baseUrl, "api", db] + [collection, Str(id)] == head + [Str(id)];
    JoinStrippedAppend(head, [Str(id)]);
    JoinStrippedOne(Str(id));
  }

  /** `str(n)` is a non-empty run of digits after an optional '-'. */
  lemma {:induction false} NatDigits(n: nat)
    ensures NatToString(n) != [] && forall i :: 0 <= i < |NatToString(n)| ==> '0' <= NatToString(n)[i] <= '9'
    decreases n
  {
    if n >= 10 {
      NatDigits(n / 10);
    }
  }

  /** An integer id goes into the URL exactly as `str(id)` spells it. */
  lemma NumericItemUrl(baseUrl: string, db: string, collection: string, n: int)
    ensures UrlOf(baseUrl, db, [collection, Str(JNumber(n))])
         == UrlOf(baseUrl, db, [collection]) + "/" + IntToString(n)
  {
    ItemUrl(baseUrl, db, collection, JNumber(n));
    NatDigits(if n < 0 then -n else n);
    var t := IntToString(n);
    assert t[|t| - 1] != '/';
    StripKeeps(t, Slash);
  }

  /** No two slashes in a row in `s`. */
  predicate NoDoubleSlash(s: string) {
    forall k :: 0 <= k < |s| - 1 ==> !(s[k] == '/' && s[k + 1] == '/')
  }

  /** A part of the URL that stripping leaves non-empty. */
  predicate CleanPart(p: string) {
    p != [] && p[0] != '/' && p[|p| - 1] != '/' && NoDoubleSlash(p)
  }

  /** Two clean parts joined by one '/' have no double slash. */
  lemma JoinTwoClean(a: string, b: string)
    requires CleanPart(a) && CleanPart(b)
    ensures CleanPart(a + "/" + b)
  {
    var s := a + "/" + b;
    forall k | 0 <= k < |s| - 1
      ensures !(s[k] == '/' && s[k + 1] == '/')
    {
      if k < |a| - 1 {
        assert s[k] == a[k] && s[k + 1] == a[k + 1];
      } else if k == |a| - 1 {
        assert s[k] == a[|a| - 1];
      } else if k == |a| {
        assert s[k + 1] == b[0];
      } else {
        assert s[k] == b[k - |a| - 1] && s[k + 1] == b[k - |a|];
      }
    }
  }

  /** Clean parts joined by '/' make a clean string. */
  lemma {:induction false} JoinClean(parts: seq<string>)
    requires parts != [] && forall i :: 0 <= i < |parts| ==> CleanPart(parts[i])
    ensures CleanPart(Join("/", parts))
    decreases |parts|
  {
    if |parts| > 1 {
      JoinClean(parts[..|parts| - 1]);
      JoinTwoClean(Join("/", parts[..|parts| - 1]), parts[|parts| - 1]);
    }
  }

  /** Stripping a part without double slashes leaves a clean part, unless it leaves nothing. */
  lemma StripClean(p: string)
    requires NoDoubleSlash(p) && Strip(p, Slash) != []
    ensures CleanPart(Strip(p, Slash))
  {
    StripTrims(p, Slash);
    var r, a := Strip(p, Slash), StripStart(p, Slash);
    forall k | 0 <= k < |r| - 1
      ensures !(r[k] == '/' && r[k + 1] == '/')
    {
      assert r[k] == p[a + k] && r[k + 1] == p[a + k + 1];
    }
  }

  /**
   * Past the base URL, `_url` puts exactly one '/' between parts: when the
   * database and every segment have no double slash of their own and do
   * not strip to nothing, the URL is the stripped base, then '/' and a
   * stretch with no two slashes in a row.
   */
  lemma UrlSingleSlashes(baseUrl: string, db: string, segments: seq<string>)
    requires NoDoubleSlash(db) && Strip(db, Slash) != []
    requires forall i :: 0 <= i < |segments| ==> NoDoubleSlash(segments[i]) && Strip(segments[i], Slash) != []
    ensures UrlOf(baseUrl, db, segments) == Strip(baseUrl, Slash) + "/" + Join("/", StripSlashes(["api", db] + segments))
    ensures NoDoubleSlash(Join("/", StripSlashes(["api", db] + segments)))
  {
    var rest := ["api", db] + segments;
    assert [baseUrl, "api", db] + segments == [baseUrl] + rest;
    JoinStrippedAppend([baseUrl], rest);
    JoinStrippedOne(baseUrl);
    UrlTailClean(db, segments);
  }

  /** The parts after the base, stripped and joined, have no two slashes in a row. */
  lemma UrlTailClean(db: string, segments: seq<string>)
    requires NoDoubleSlash(db) && Strip(db, Slash) != []
    requires forall i :: 0 <= i < |segments| ==> NoDoubleSlash(segments[i]) && Strip(segments[i], Slash) != []
    ensures CleanPart(Join("/", StripSlashes(["api", db] + segments)))
  {
    var rest := ["api", db] + segments;
    var stripped := StripSlashes(rest);
    forall i | 0 <= i < |rest|
      ensures CleanPart(stripped[i])
    {
      if i == 0 {
        StripKeeps("api", Slash);
      } else if i == 1 {
        StripClean(db);
      } else {
        assert rest[i] == segments[i - 2];
        StripClean(segments[i - 2]);
      }
    }
    JoinClean(stripped);
  }

  /** A database name that strips to nothing leaves a double slash: `<base>/api//<segments>`. */
  lemma EmptyDbDoublesSlash(baseUrl: string, db: string, segments: seq<string>)
    requires Strip(db, Slash) == [] && segments != []
    ensures UrlOf(baseUrl, db, segments) == Strip(baseUrl, Slash) + "/api//" + Join("/", StripSlashes(segments))
  {
    UrlShape(baseUrl, db, segments);
  }

  /** The slashes `__init__` cuts off the base URL would have been cut off every URL anyway. */
  lemma RStripKeepsUrls(baseUrl: string, db: string, segments: seq<string>)
    ensures UrlOf(RStrip(baseUrl, Slash), db, segments) == UrlOf(baseUrl, db, segments)
  {
    StripAfterRStrip(baseUrl);
    UrlShape(baseUrl, db, segments);
    UrlShape(RStrip(baseUrl, Slash), db, segments);
  }

  /** `s.rstrip("/").strip("/") == s.strip("/")`. */
  lemma StripAfterRStrip(s: string)
    ensures Strip(RStrip(s, Slash), Slash) == Strip(s, Slash)
  {
    var t := RStrip(s, Slash);
    var a, e := StripStart(s, Slash), StripEnd(s, Slash);
    if t == [] {
      assert Only(s, Slash);
      assert a == |s|;
    } else {
      var j := |t|;
      assert s[j - 1] == t[j - 1];
      assert forall k :: 0 <= k < j ==> t[k] == s[k];
      assert StripStart(t, Slash) == a;
      assert StripEnd(t, Slash) == j;
      assert forall k :: j <= k < |s| ==> s[k] == s[j..][k - j];
      assert e == j;
    }
  }

  // ---------------------------------------------------------------------
  // Requests

  /** The operations that carry an item id. */
  predicate HasItem(op: Op) {
    op.GetOp? || op.ReplaceOp? || op.PatchOp? || op.DeleteOp?
  }

  /**
   * A caller's session that already carries a lower-case `authorization`
   * header ends up with the bearer header alone; other headers stay.
   */
  lemma AuthorizationReplaced(token: string)
    ensures WithAuthorization(map["authorization" := "Basic x", "Accept" := "text/plain"], token)
         == map["Authorization" := "Bearer " + token, "Accept" := "text/plain"]
  {
    assert Lower("authorization") == "authorization";
    assert Lower("Accept")[0] == 'a';
  }

  /**
   * Each operation's request: its verb; a JSON body exactly for create,
   * replace and patch, and it is the caller's payload; query parameters only
   * for list; the session's headers and the client's timeout; and a URL that
   * is the collection's, extended by `str(id)` for the item operations.
   */
  lemma RequestMapping(baseUrl: string, headers: map<string, string>, timeout: real, op: Op)
    ensures var r := RequestFor(baseUrl, headers, timeout, op);
      && r.headers == headers && r.timeout == timeout
      && (r.verb == GET <==> op.ListOp? || op.GetOp? || op.DbOp?)
      && (r.verb == POST <==> op.CreateOp?)
      && (r.verb == PUT <==> op.ReplaceOp?)
      && (r.verb == PATCH <==> op.PatchOp?)
      && (r.verb == DELETE <==> op.DeleteOp?)
      && (r.body.Some? <==> op.CreateOp? || op.ReplaceOp? || op.PatchOp?)
      && (r.body.Some? ==> r.body.value == op.body)
      && (r.params.Some? ==> op.ListOp?)
      && (op.ListOp? ==> r.params == op.params)
      && (op.DbOp? ==> r.url == Strip(baseUrl, Slash) + "/api/" + Strip(op.db, Slash))
      && (op.ListOp? || op.CreateOp? ==> r.url == UrlOf(baseUrl, op.db, [op.collection]))
      && (HasItem(op) ==> r.url == UrlOf(baseUrl, op.db, [op.collection]) + "/" + Strip(Str(op.id), Slash))
  {
    match op
    case DbOp(db) => UrlShape(baseUrl, db, []);
    case ListOp(_, _, _) =>
    case CreateOp(_, _, _) =>
    case _ => ItemUrl(baseUrl, op.db, op.collection, op.id);
  }

  // ---------------------------------------------------------------------
  // Reading a response

  /**
   * `_request` reads a response in a fixed order: a 4xx or 5xx status
   * raises whatever the body; 204 gives `None` whatever the body; then a
   * JSON content type gives the decoded body (or the decoder's
   * `ValueError`); anything else gives the text.
   */
  lemma ResponseOrder(resp: HttpResponse)
    ensures var r := Complete(Received(resp));
      && (r.Raised? && !r.error.ValueError? ==> !IsOk(resp.status))
      && (r.Raised? && IsOk(resp.status) ==>
            resp.status != 204 && StartsWith(resp.contentType, "application/json")
            && resp.json.Malformed? && r.error == ValueError(resp.json.message))
      && (!IsOk(resp.status) ==> r == Raised(ErrorOf(resp)))
      && (IsOk(resp.status) && resp.status == 204 ==> r == Ok(NoneValue))
      && (r == Ok(NoneValue) ==> resp.status == 204)
      && (r.Ok? && r.value.JsonValue? <==>
            IsOk(resp.status) && resp.status != 204
            && StartsWith(resp.contentType, "application/json") && resp.json.Parsed?)
      && (r.Ok? && r.value.JsonValue? ==> resp.json == Parsed(r.value.json))
      && (r.Ok? && r.value.TextValue? <==>
            IsOk(resp.status) && resp.status != 204 && !StartsWith(resp.contentType, "application/json"))
      && (r.Ok? && r.value.TextValue? ==> r.value.text == resp.text)
  {
  }

  /** `delete` returns `None` on every success, whatever the server sent back. */
  lemma DeleteReturnsNone(db: string, collection: string, id: Json, reply: Reply)
    ensures Respond(DeleteOp(db, collection, id), reply).Ok? <==> Complete(reply).Ok?
    ensures Respond(DeleteOp(db, collection, id), reply).Ok? ==>
              Respond(DeleteOp(db, collection, id), reply) == Ok(NoneValue)
  {
  }

  /**
   * `_raise_error`'s message: a truthy "error" member of a JSON object,
   * else the whole object; for a body that is not JSON, the text, else the
   * reason phrase.
   */
  lemma ErrorMessageRules(resp: HttpResponse)
    ensures var e := ErrorOf(resp);
      && (resp.json.Parsed? && resp.json.value.JObject? ==>
            var error := Get(resp.json.value.fields, "error");
            e.JsonServerError?
            && e.message == (if error.Some? && Truthy(error.value) then Str(error.value) else Repr(resp.json.value)))
      && (resp.json.Malformed? && resp.text != "" ==> e.message == resp.text)
      && (resp.json.Malformed? && resp.text == "" ==> e.message == ReasonText(resp.reason))
  {
  }

  /** The server's own 404 body: `{"error": "not found"}` becomes `JsonServerError(404, "not found")`. */
  lemma NotFoundError()
    ensures var body := JObject([("error", JString("not found"))]);
      ErrorOf(HttpResponse(404, "application/json", "{\"error\":\"not found\"}", Parsed(body), Some("Not Found")))
      == JsonServerError(404, "not found", JsonPayload(body))
  {
  }

  /** `repr` of a one-member object. */
  lemma ReprOneMember(f: seq<(string, Json)>, key: string, value: Json)
    requires f == [(key, value)]
    ensures Repr(JObject(f)) == "{" + Quote(key) + ": " + Repr(value) + "}"
  {
    var items := seq(|f|, i requires 0 <= i < |f| => Quote(f[i].0) + ": " + Repr(f[i].1));
    assert items == [Quote(key) + ": " + Repr(value)];
  }

  /** `repr({"error": ""})` is `{'error': ''}`. */
  lemma EmptyErrorRepr(f: seq<(string, Json)>)
    requires f == [("error", JString(""))]
    ensures Repr(JObject(f)) == "{'error': ''}"
  {
    ReprOneMember(f, "error", JString(""));
    QuoteOfError();
    QuotePlain("");
    assert Repr(JObject(f)) == "{" + "'error'" + ": " + "''" + "}";
  }

  /** `repr("error")` is `'error'`. */
  lemma QuoteOfError()
    ensures Quote("error") == "'error'"
  {
    QuotePlain("error");
  }

  /** An empty "error" member is falsy, so the message is the whole object's `str`. */
  lemma FalsyErrorShowsObject()
    ensures var body := JObject([("error", JString(""))]);
      ErrorOf(HttpResponse(400, "application/json", "{\"error\":\"\"}", Parsed(body), Some("Bad Request")))
      == JsonServerError(400, "{'error': ''}", JsonPayload(body))
  {
    var f := [("error", JString(""))];
    assert Get(f, "error") == Some(JString(""));
    EmptyErrorRepr(f);
  }

  /** An empty body that is not JSON falls back to the reason phrase, or "None" when there is none. */
  lemma EmptyBodyUsesReason(status: int, message: string, reason: Option<string>)
    requires !IsOk(status)
    ensures ErrorOf(HttpResponse(status, "text/plain", "", Malformed(message), reason))
         == JsonServerError(status, if reason.Some? then reason.value else "None", TextPayload(""))
  {
  }

  // ---------------------------------------------------------------------
  // db_ids

  /** An item `item["id"]` succeeds on. */
  predicate HasId(item: Json) {
    item.JObject? && Get(item.fields, "id").Some?
  }

  /**
   * The ids of a list of items, in the order of the items, when every item
   * is an object with an "id"; otherwise the first item that has none
   * raises `KeyError("id")` if it is an object and `TypeError` if not.
   */
  lemma IdsInOrder(items: seq<Json>)
    ensures IdsOfItems(items).Success? <==> forall i :: 0 <= i < |items| ==> HasId(items[i])
    ensures IdsOfItems(items).Success? ==>
              |IdsOfItems(items).value| == |items|
              && forall i :: 0 <= i < |items| ==> IdsOfItems(items).value[i] == Get(items[i].fields, "id").value
    ensures IdsOfItems(items).Failure? ==>
              exists i :: 0 <= i < |items| && !HasId(items[i]) && (forall j :: 0 <= j < i ==> HasId(items[j]))
                          && IdsOfItems(items).error == (if items[i].JObject? then KeyError("id") else TypeError)
  {
    IdsAllPresent(items);
    if IdsOfItems(items).Failure? {
      var k := IdsFirstMissing(items);
    }
  }

  /** The success half of `IdsInOrder`. */
  lemma {:induction false} IdsAllPresent(items: seq<Json>)
    ensures IdsOfItems(items).Success? <==> forall i :: 0 <= i < |items| ==> HasId(items[i])
    ensures IdsOfItems(items).Success? ==>
              |IdsOfItems(items).value| == |items|
              && forall i :: 0 <= i < |items| ==> IdsOfItems(items).value[i] == Get(items[i].fields, "id").value
    decreases |items|
  {
    if items != [] {
      IdsAllPresent(items[1..]);
      if !HasId(items[0]) {
        assert !HasId(items[0]);
      }
    }
  }

  /** The failure half of `IdsInOrder`: the first item without an id, and the error it raises. */
  lemma {:induction false} IdsFirstMissing(items: seq<Json>) returns (k: nat)
    requires IdsOfItems(items).Failure?
    ensures k < |items| && !HasId(items[k]) && (forall j :: 0 <= j < k ==> HasId(items[j]))
    ensures IdsOfItems(items).error == (if items[k].JObject? then KeyError("id") else TypeError)
    decreases |items|
  {
    if HasId(items[0]) {
      var i := IdsFirstMissing(items[1..]);
      k := i + 1;
      forall j | 0 <= j < k ensures HasId(items[j]) {
        if j > 0 {
          assert items[j] == items[1..][j - 1];
        }
      }
    } else {
      k := 0;
    }
  }

  /** The response of a list request that failed with `status`, with a body `_raise_error` can read. */
  predicate FailedWith(reply: Reply, status: int) {
    reply.Received? && reply.response.status == status && !IsOk(status)
    && !(reply.response.json.Parsed? && !reply.response.json.value.JObject?)
  }

  /**
   * `db_ids`: a 404 gives `[]`, every other `JsonServerError` gives `None`;
   * a 404 whose body is JSON but not an object raises `AttributeError`
   * inside `_raise_error`, which `db_ids` does not catch; a transport
   * failure propagates.
   */
  lemma DbIdsErrors(db: string, collection: string, reply: Reply)
    ensures var r := IdsOf(Respond(ListOp(db, collection, None), reply));
      && (FailedWith(reply, 404) ==> r == Ok(Some([])))
      && ((reply.Received? && reply.response.status != 404 && FailedWith(reply, reply.response.status))
          ==> r == Ok(None))
      && ((reply.Received? && !IsOk(reply.response.status) && reply.response.json.Parsed?
           && !reply.response.json.value.JObject?) ==> r == Raised(AttributeError))
      && (reply.TransportFailed? ==> r == Raised(TransportError))
  {
  }

  /** `db_ids` on a successful JSON list of items that all carry an id: those ids, in order. */
  lemma DbIdsListed(db: string, collection: string, resp: HttpResponse, items: seq<Json>)
    requires IsOk(resp.status) && resp.status != 204 && StartsWith(resp.contentType, "application/json")
    requires resp.json == Parsed(JArray(items)) && forall i :: 0 <= i < |items| ==> HasId(items[i])
    ensures IdsOf(Respond(ListOp(db, collection, None), Received(resp)))
         == Ok(Some(seq(|items|, i requires 0 <= i < |items| && HasId(items[i]) => Get(items[i].fields, "id").value)))
  {
    IdsInOrder(items);
    var ids := IdsOfItems(items).value;
    assert ids == seq(|items|, i requires 0 <= i < |items| && HasId(items[i]) => Get(items[i].fields, "id").value);
  }
}
