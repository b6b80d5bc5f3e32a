/**
 * The interactive shell of python-examples/example3.py: `InteractiveCLI`
 * keeps a session of three strings (base URL, token, default database),
 * reads one line at a time, and turns each slash command into at most one
 * call of a freshly built `JsonServerClient`.
 *
 * Console output is modelled by the kind and key values of what is printed
 * (`Report`); the JSON text codec is the parameter `decode`; the network is
 * the parameter `server`.
 */
module Cli {
  import opened Wrappers
  import opened PyText
  import opened JsonModel
  import opened Client

  /** `_client()` leaves the client's timeout at its default of 5 seconds. */
  const DefaultTimeout: real := 5.0

  /** The commands `_dispatch` routes to a handler; any other first word is unknown. */
  const Commands: set<string> :=
    {"/url", "/token", "/db", "/state", "/showdb", "/list", "/get", "/create", "/replace", "/patch", "/delete"}

  /** The lines that end `run` (after trimming). */
  const ExitWords: set<string> := {"/exit", "exit", "quit"}

  /** The fields of `InteractiveCLI`. */
  datatype Session = Session(baseUrl: string, token: string, db: string)

  /** What a handler prints when it completes. */
  datatype Output =
    | UrlSet(url: string)
    | TokenUpdated
    | DbSet(db: string)
    | StateShown(state: Session)
    | Pretty(value: Value)
    | Deleted

  /** What one dispatched line shows, or the exception that escapes `_dispatch`. */
  datatype Report =
    | HelpShown
    | Printed(output: Output)
    | UnknownCommand(command: string)
    | UsageError(message: string)
    | ApiError(status: int, message: string, shown: Option<Payload>)
    | Crashed(error: PyError)

  /**
   * A handler's effect: the session after it, what it printed or raised, and
   * the requests it handed to the session (including one whose URL the
   * transport then refuses, so that nothing goes out).
   */
  datatype Handled = Handled(session: Session, result: Outcome<Output>, sent: seq<HttpRequest>)

  /** One pass through `_dispatch`: the session after it, its report, the requests handed to the session. */
  datatype Turn = Turn(session: Session, report: Report, sent: seq<HttpRequest>)

  /** What `input()` gives: a line, end of input (`EOFError`), or Ctrl-C (`KeyboardInterrupt`). */
  datatype Input = Line(text: string) | EndOfInput | Interrupt

  /** How `run` ends: by leaving its loop, or by an exception it does not catch. */
  datatype Ending = Bye | Uncaught(error: PyError)

  /** The session `run` leaves behind, the reports of its dispatched lines, and how it ended. */
  datatype RunResult = RunResult(session: Session, reports: seq<Report>, ending: Ending)

  // ---------------------------------------------------------------------
  // parse_params and parse_json
  // ---------------------------------------------------------------------

  /** The part of a `key=value` token before its first '='. */
  function KeyOf(token: string): string
    requires '=' in token
  {
    token[..IndexOf(token, '=')]
  }

  /** The part of a `key=value` token after its first '='; it may hold more '='. */
  function ValueOf(token: string): string
    requires '=' in token
  {
    token[IndexOf(token, '=') + 1..]
  }

  /** The `ValueError` `parse_params` raises for a token without '='. */
  function BadPair(token: string): PyError {
    ValueError("expected key=value pair, got " + Quote(token))
  }

  /** What `parse_params(tokens)` returns or raises, token by token from the first. */
  function ParamsOf(tokens: seq<string>): Result<map<string, string>, PyError>
  {
    if tokens == [] then Success(map[])
    else
      var init := ParamsOf(tokens[..|tokens| - 1]);
      var token := tokens[|tokens| - 1];
      if init.Failure? then init
      else if '=' !in token then Failure(BadPair(token))
      else Success(init.value[KeyOf(token) := ValueOf(token)])
  }

  /** Once a prefix of the tokens fails, the whole list fails the same way. */
  lemma {:induction false} ParamsFailureSticks(tokens: seq<string>, n: nat)
    requires n <= |tokens| && ParamsOf(tokens[..n]).Failure?
    ensures ParamsOf(tokens) == ParamsOf(tokens[..n])
    decreases |tokens| - n
  {
    if n == |tokens| {
      assert tokens[..n] == tokens;
    } else {
      assert tokens[..n + 1][..n] == tokens[..n];
      ParamsFailureSticks(tokens, n + 1);
    }
  }

  /** `parse_params`: fills a dict from `key=value` tokens, raising at the first token without '='. */
  method ParseParams(tokens: seq<string>) returns (r: Result<map<string, string>, PyError>)
    ensures r == ParamsOf(tokens)
  {
    var params: map<string, string> := map[];
    for i := 0 to |tokens|
      invariant ParamsOf(tokens[..i]) == Success(params)
    {
      var token := tokens[i];
      assert tokens[..i + 1][..i] == tokens[..i];
      if '=' !in token {
        ParamsFailureSticks(tokens, i + 1);
        return Failure(BadPair(token));
      }
      params := params[KeyOf(token) := ValueOf(token)];
    }
    assert tokens[..|tokens|] == tokens;
    r := Success(params);
  }

  /** `parse_json`: the members of the JSON object the text decodes to, else a `ValueError`. */
  function ParseJson(payload: string, decode: string -> Decoded): (r: Result<seq<(string, Json)>, PyError>)
    ensures r.Success? <==> decode(payload).Parsed? && decode(payload).value.JObject?
    ensures r.Success? ==> decode(payload) == Parsed(JObject(r.value))
    ensures r.Failure? ==> r.error.ValueError?
  {
    match decode(payload)
    case Malformed(m) => Failure(ValueError("Invalid JSON: " + m))
    case Parsed(j) =>
      if j.JObject? then Success(j.fields) else Failure(ValueError("JSON payload must be an object"))
  }

  // ---------------------------------------------------------------------
  // The handlers, as functions of the session
  // ---------------------------------------------------------------------

  /** The request a client built by `_client()` sends for `op`. */
  function SessionRequest(s: Session, op: Op): HttpRequest {
    RequestFor(RStrip(s.baseUrl, Slash), WithAuthorization(map[], s.token), DefaultTimeout, op)
  }

  /** What a handler prints for an operation's outcome: `deleted`, or the pretty-printed value. */
  function Rendered(op: Op, out: Outcome<Value>): Outcome<Output> {
    match out
    case Raised(e) => Raised(e)
    case Ok(v) => Ok(if op.DeleteOp? then Deleted else Pretty(v))
  }

  /** `client = self._client()` followed by the client call for `op`. */
  function CallClient(s: Session, op: Op, server: Server): Handled {
    if s.token == "" then Handled(s, Raised(ValueError("token is required")), [])
    else
      var request := SessionRequest(s, op);
      Handled(s, Rendered(op, Respond(op, server(request))), [request])
  }

  /** `_set_url`, `_set_token`, `_set_db`. */
  function SetUrlSpec(s: Session, parts: seq<string>): Handled {
    if |parts| < 2 then Handled(s, Raised(IndexError), [])
    else Handled(s.(baseUrl := parts[1]), Ok(UrlSet(parts[1])), [])
  }

  function SetTokenSpec(s: Session, parts: seq<string>): Handled {
    if |parts| < 2 then Handled(s, Raised(IndexError), [])
    else Handled(s.(token := parts[1]), Ok(TokenUpdated), [])
  }

  function SetDbSpec(s: Session, parts: seq<string>): Handled {
    if |parts| < 2 then Handled(s, Raised(IndexError), [])
    else Handled(s.(db := parts[1]), Ok(DbSet(parts[1])), [])
  }

  /** `_show_db`: the named database, or the session's when none is named. */
  function ShowDbSpec(s: Session, parts: seq<string>, server: Server): Handled {
    CallClient(s, DbOp(if |parts| > 1 then parts[1] else s.db), server)
  }

  /** `_list`: a collection of the session's database, filtered when filter tokens follow. */
  function ListSpec(s: Session, parts: seq<string>, server: Server): Handled {
    if |parts| < 2 then Handled(s, Raised(ValueError("/list <collection> [key=value ...]")), [])
    else if |parts| > 2 then
      match ParamsOf(parts[2..])
      case Failure(e) => Handled(s, Raised(e), [])
      case Success(params) => CallClient(s, ListOp(s.db, parts[1], Some(params)), server)
    else CallClient(s, ListOp(s.db, parts[1], None), server)
  }

  /** `_get`. */
  function GetSpec(s: Session, parts: seq<string>, server: Server): Handled {
    if |parts| < 3 then Handled(s, Raised(ValueError("/get <collection> <id>")), [])
    else CallClient(s, GetOp(s.db, parts[1], JString(parts[2])), server)
  }

  /** `_delete`. */
  function DeleteSpec(s: Session, parts: seq<string>, server: Server): Handled {
    if |parts| < 3 then Handled(s, Raised(ValueError("/delete <collection> <id>")), [])
    else CallClient(s, DeleteOp(s.db, parts[1], JString(parts[2])), server)
  }

  /** `_create`: the line split twice at most, its remainder the JSON document. */
  function CreateSpec(s: Session, raw: string, decode: string -> Decoded, server: Server): Handled {
    var parts := SplitMax(raw, 2);
    if |parts| < 3 then Handled(s, Raised(ValueError("/create <collection> <json-payload>")), [])
    else
      match ParseJson(parts[2], decode)
      case Failure(e) => Handled(s, Raised(e), [])
      case Success(fields) => CallClient(s, CreateOp(s.db, parts[1], JObject(fields)), server)
  }

  /** `_replace` and `_patch`: the line split three times at most, its remainder the JSON document. */
  function ReplaceSpec(s: Session, raw: string, decode: string -> Decoded, server: Server): Handled {
    var parts := SplitMax(raw, 3);
    if |parts| < 4 then Handled(s, Raised(ValueError("/replace <collection> <id> <json-payload>")), [])
    else
      match ParseJson(parts[3], decode)
      case Failure(e) => Handled(s, Raised(e), [])
      case Success(fields) => CallClient(s, ReplaceOp(s.db, parts[1], JString(parts[2]), JObject(fields)), server)
  }

  function PatchSpec(s: Session, raw: string, decode: string -> Decoded, server: Server): Handled {
    var parts := SplitMax(raw, 3);
    if |parts| < 4 then Handled(s, Raised(ValueError("/patch <collection> <id> <json-payload>")), [])
    else
      match ParseJson(parts[3], decode)
      case Failure(e) => Handled(s, Raised(e), [])
      case Success(fields) => CallClient(s, PatchOp(s.db, parts[1], JString(parts[2]), JObject(fields)), server)
  }

  /** The commands whose handlers work on the session alone. */
  const SessionCommands: set<string> := {"/url", "/token", "/db", "/state"}

  /** The handlers of `/url`, `/token`, `/db` and `/state`. */
  function SessionHandle(s: Session, parts: seq<string>): Handled
    requires parts != [] && parts[0] in SessionCommands
  {
    var command := parts[0];
    if command == "/url" then SetUrlSpec(s, parts)
    else if command == "/token" then SetTokenSpec(s, parts)
    else if command == "/db" then SetDbSpec(s, parts)
    else Handled(s, Ok(StateShown(s)), [])
  }

  /** The handlers that build a client. */
  function ClientHandle(s: Session, parts: seq<string>, raw: string, decode: string -> Decoded, server: Server): (h: Handled)
    requires parts != [] && parts[0] in Commands - SessionCommands
    ensures h.session == s
  {
    var command := parts[0];
    if command == "/showdb" then ShowDbSpec(s, parts, server)
    else if command == "/list" then ListSpec(s, parts, server)
    else if command == "/get" then GetSpec(s, parts, server)
    else if command == "/create" then CreateSpec(s, raw, decode, server)
    else if command == "/replace" then ReplaceSpec(s, raw, decode, server)
    else if command == "/patch" then PatchSpec(s, raw, decode, server)
    else DeleteSpec(s, parts, server)
  }

  /** The handler `_dispatch` picks for a known command. */
  function Handle(s: Session, parts: seq<string>, raw: string, decode: string -> Decoded, server: Server): Handled
    requires parts != [] && parts[0] in Commands
  {
    if parts[0] in SessionCommands then SessionHandle(s, parts)
    else ClientHandle(s, parts, raw, decode, server)
  }

  /** Python's `bool(exc.payload)`. */
  predicate PayloadTruthy(p: Payload) {
    match p
    case JsonPayload(j) => Truthy(j)
    case TextPayload(t) => t != ""
  }

  /** The `except` clauses of `_dispatch`: usage errors, API errors, and what they let through. */
  function Catch(result: Outcome<Output>): Report {
    match result
    case Ok(output) => Printed(output)
    case Raised(e) =>
      match e
      case ValueError(m) => UsageError(m)
      case IndexError => UsageError("list index out of range")
      case JsonServerError(status, message, payload) =>
        ApiError(status, message, if PayloadTruthy(payload) then Some(payload) else None)
      case _ => Crashed(e)
  }

  /** `_dispatch(raw)` for a session. */
  function Step(s: Session, raw: string, decode: string -> Decoded, server: Server): Turn {
    if raw == "/help" || raw == "help" then Turn(s, HelpShown, [])
    else
      var parts := Split(raw);
      if parts == [] then Turn(s, Crashed(IndexError), [])
      else if parts[0] !in Commands then Turn(s, UnknownCommand(parts[0]), [])
      else
        var h := Handle(s, parts, raw, decode, server);
        Turn(h.session, Catch(h.result), h.sent)
  }

  /** Reports that came before a run's remaining ones. */
  function After(done: seq<Report>, rest: RunResult): RunResult {
    RunResult(rest.session, done + rest.reports, rest.ending)
  }

  /** What one input does to `run`: it goes on with more reports, or it ends with a result. */
  datatype Fed = Next(session: Session, reports: seq<Report>) | Halt(result: RunResult)

  /** One iteration of `run`'s loop. */
  function Consume(s: Session, input: Input, decode: string -> Decoded, server: Server): Fed {
    match input
    case EndOfInput => Halt(RunResult(s, [], Bye))
    case Interrupt => Halt(RunResult(s, [], Bye))
    case Line(text) =>
      var raw := Strip(text, Whitespace);
      if raw == "" then Next(s, [])
      else if raw in ExitWords then Halt(RunResult(s, [], Bye))
      else
        var turn := Step(s, raw, decode, server);
        if turn.report.Crashed? then Halt(RunResult(turn.session, [], Uncaught(turn.report.error)))
        else Next(turn.session, [turn.report])
  }

  /** `run()` over the lines the user types; running out of lines is end of input. */
  function RunSpec(s: Session, inputs: seq<Input>, decode: string -> Decoded, server: Server): RunResult
    decreases |inputs|
  {
    if inputs == [] then RunResult(s, [], Bye)
    else
      match Consume(s, inputs[0], decode, server)
      case Halt(result) => result
      case Next(next, reports) => After(reports, RunSpec(next, inputs[1..], decode, server))
  }

  // ---------------------------------------------------------------------
  // InteractiveCLI
  // ---------------------------------------------------------------------

  class InteractiveCli {
    var baseUrl: string
    var token: string
    var db: string

    function State(): Session
      reads this
    {
      Session(baseUrl, token, db)
    }

    /** `__init__`: the session starts from the defaults the launcher supplies. */
    constructor (defaults: Session)
      ensures State() == defaults
    {
      baseUrl := defaults.baseUrl;
      token := defaults.token;
      db := defaults.db;
    }

    /** `run`: trims each line, skips blank ones, stops at an exit word or the end of input. */
    method Run(inputs: seq<Input>, decode: string -> Decoded, server: Server)
      returns (reports: seq<Report>, ending: Ending)
      modifies this
      ensures RunResult(State(), reports, ending) == RunSpec(old(State()), inputs, decode, server)
    {
      reports := [];
      var i := 0;
      while i < |inputs|
        invariant 0 <= i <= |inputs|
        invariant RunSpec(old(State()), inputs, decode, server)
                  == After(reports, RunSpec(State(), inputs[i..], decode, server))
      {
        assert inputs[i..][1..] == inputs[i + 1..];
        var fed := Feed(inputs[i], decode, server);
        match fed
        case Halt(result) =>
          return reports + result.reports, result.ending;
        case Next(_, more) =>
          reports := reports + more;
          i := i + 1;
      }
      ending := Bye;
    }

    /** The body of `run`'s loop for one input. */
    method Feed(input: Input, decode: string -> Decoded, server: Server) returns (fed: Fed)
      modifies this
      ensures fed == Consume(old(State()), input, decode, server)
      ensures State() == (if fed.Next? then fed.session else fed.result.session)
    {
      match input
      case EndOfInput =>
        fed := Halt(RunResult(State(), [], Bye));
      case Interrupt =>
        fed := Halt(RunResult(State(), [], Bye));
      case Line(text) =>
        var raw := Strip(text, Whitespace);
        if raw == "" {
          fed := Next(State(), []);
        } else if raw in ExitWords {
          fed := Halt(RunResult(State(), [], Bye));
        } else {
          var report, sent := Dispatch(raw, decode, server);
          if report.Crashed? {
            fed := Halt(RunResult(State(), [], Uncaught(report.error)));
          } else {
            fed := Next(State(), [report]);
          }
        }
    }

    /** `_dispatch`: help, then the handler of the first word, inside the `try`. */
    method Dispatch(raw: string, decode: string -> Decoded, server: Server)
      returns (report: Report, ghost sent: seq<HttpRequest>)
      modifies this
      ensures Turn(State(), report, sent) == Step(old(State()), raw, decode, server)
    {
      if raw == "/help" || raw == "help" {
        return HelpShown, [];
      }
      var parts := Split(raw);
      if parts == [] {
        // `parts[0]` is evaluated before the `try`
        return Crashed(IndexError), [];
      }
      var command := parts[0];
      if command !in Commands {
        return UnknownCommand(command), [];
      }
      var result: Outcome<Output>;
      if command in SessionCommands {
        result := HandleSession(parts);
        sent := [];
      } else {
        result, sent := HandleClient(parts, raw, decode, server);
      }
      report := Catch(result);
    }

    /** The branches of `_dispatch` that only touch the session. */
    method HandleSession(parts: seq<string>) returns (r: Outcome<Output>)
      requires parts != [] && parts[0] in SessionCommands
      modifies this
      ensures Handled(State(), r, []) == SessionHandle(old(State()), parts)
    {
      var command := parts[0];
      if command == "/url" {
        r := SetUrl(parts);
      } else if command == "/token" {
        r := SetToken(parts);
      } else if command == "/db" {
        r := SetDb(parts);
      } else {
        r := PrintState();
      }
    }

    /** The branches of `_dispatch` that call the API through a new client. */
    method HandleClient(parts: seq<string>, raw: string, decode: string -> Decoded, server: Server)
      returns (r: Outcome<Output>, ghost sent: seq<HttpRequest>)
      requires parts != [] && parts[0] in Commands - SessionCommands
      ensures r == ClientHandle(State(), parts, raw, decode, server).result
      ensures sent == ClientHandle(State(), parts, raw, decode, server).sent
    {
      var command := parts[0];
      if command == "/showdb" {
        r, sent := ShowDb(parts, server);
      } else if command == "/list" {
        r, sent := List(parts, server);
      } else if command == "/get" {
        r, sent := Get(parts, server);
      } else if command == "/create" {
        r, sent := Create(raw, decode, server);
      } else if command == "/replace" {
        r, sent := Replace(raw, decode, server);
      } else if command == "/patch" {
        r, sent := Patch(raw, decode, server);
      } else {
        r, sent := Delete(parts, server);
      }
    }

    /** `_client`: a new client over the session's URL and token. */
    method MakeClient() returns (r: Result<JsonServerClient, PyError>)
      ensures token == "" ==> r == Failure(ValueError("token is required"))
      ensures token != "" ==> r.Success? && fresh(r.value.session)
                              && r.value.baseUrl == RStrip(baseUrl, Slash)
                              && r.value.timeout == DefaultTimeout
                              && r.value.session.headers == WithAuthorization(map[], token)
    {
      r := NewClient(baseUrl, token, DefaultTimeout, None);
    }

    method SetUrl(parts: seq<string>) returns (r: Outcome<Output>)
      modifies this
      ensures Handled(State(), r, []) == SetUrlSpec(old(State()), parts)
    {
      if |parts| < 2 {
        return Raised(IndexError);
      }
      baseUrl := parts[1];
      r := Ok(UrlSet(baseUrl));
    }

    method SetToken(parts: seq<string>) returns (r: Outcome<Output>)
      modifies this
      ensures Handled(State(), r, []) == SetTokenSpec(old(State()), parts)
    {
      if |parts| < 2 {
        return Raised(IndexError);
      }
      token := parts[1];
      r := Ok(TokenUpdated);
    }

    method SetDb(parts: seq<string>) returns (r: Outcome<Output>)
      modifies this
      ensures Handled(State(), r, []) == SetDbSpec(old(State()), parts)
    {
      if |parts| < 2 {
        return Raised(IndexError);
      }
      db := parts[1];
      r := Ok(DbSet(db));
    }

    /** `_print_state`. */
    method PrintState() returns (r: Outcome<Output>)
      ensures r == Ok(StateShown(State()))
    {
      r := Ok(StateShown(Session(baseUrl, token, db)));
    }

    method ShowDb(parts: seq<string>, server: Server) returns (r: Outcome<Output>, ghost sent: seq<HttpRequest>)
      ensures r == ShowDbSpec(State(), parts, server).result
      ensures sent == ShowDbSpec(State(), parts, server).sent
    {
      var dbName := if |parts| > 1 then parts[1] else db;
      var client := MakeClient();
      if client.Failure? {
        return Raised(client.error), [];
      }
      var out, request := client.value.Db(dbName, server);
      sent := [request];
      r := Rendered(DbOp(dbName), out);
    }

    method List(parts: seq<string>, server: Server) returns (r: Outcome<Output>, ghost sent: seq<HttpRequest>)
      ensures r == ListSpec(State(), parts, server).result
      ensures sent == ListSpec(State(), parts, server).sent
    {
      if |parts| < 2 {
        return Raised(ValueError("/list <collection> [key=value ...]")), [];
      }
      var collection := parts[1];
      var params: Option<map<string, string>> := None;
      if |parts| > 2 {
        var parsed := ParseParams(parts[2..]);
        if parsed.Failure? {
          return Raised(parsed.error), [];
        }
        params := Some(parsed.value);
      }
      var client := MakeClient();
      if client.Failure? {
        return Raised(client.error), [];
      }
      var out, request := client.value.List(db, collection, params, server);
      sent := [request];
      r := Rendered(ListOp(db, collection, params), out);
    }

    method Get(parts: seq<string>, server: Server) returns (r: Outcome<Output>, ghost sent: seq<HttpRequest>)
      ensures r == GetSpec(State(), parts, server).result
      ensures sent == GetSpec(State(), parts, server).sent
    {
      if |parts| < 3 {
        return Raised(ValueError("/get <collection> <id>")), [];
      }
      var collection, itemId := parts[1], parts[2];
      var client := MakeClient();
      if client.Failure? {
        return Raised(client.error), [];
      }
      var out, request := client.value.Get(db, collection, JString(itemId), server);
      sent := [request];
      r := Rendered(GetOp(db, collection, JString(itemId)), out);
    }

    method Create(raw: string, decode: string -> Decoded, server: Server)
      returns (r: Outcome<Output>, ghost sent: seq<HttpRequest>)
      ensures r == CreateSpec(State(), raw, decode, server).result
      ensures sent == CreateSpec(State(), raw, decode, server).sent
    {
      var parts := SplitMax(raw, 2);
      if |parts| < 3 {
        return Raised(ValueError("/create <collection> <json-payload>")), [];
      }
      var collection, payloadText := parts[1], parts[2];
      var payload := ParseJson(payloadText, decode);
      if payload.Failure? {
        return Raised(payload.error), [];
      }
      var client := MakeClient();
      if client.Failure? {
        return Raised(client.error), [];
      }
      var op := CreateOp(db, collection, JObject(payload.value));
      var out, request := client.value.Create(db, collection, JObject(payload.value), server);
      sent := [request];
      r := Rendered(op, out);
    }

    method Replace(raw: string, decode: string -> Decoded, server: Server)
      returns (r: Outcome<Output>, ghost sent: seq<HttpRequest>)
      ensures r == ReplaceSpec(State(), raw, decode, server).result
      ensures sent == ReplaceSpec(State(), raw, decode, server).sent
    {
      var parts := SplitMax(raw, 3);
      if |parts| < 4 {
        return Raised(ValueError("/replace <collection> <id> <json-payload>")), [];
      }
      var collection, itemId, payloadText := parts[1], parts[2], parts[3];
      var payload := ParseJson(payloadText, decode);
      if payload.Failure? {
        return Raised(payload.error), [];
      }
      var client := MakeClient();
      if client.Failure? {
        return Raised(client.error), [];
      }
      var op := ReplaceOp(db, collection, JString(itemId), JObject(payload.value));
      var out, request := client.value.Replace(db, collection, JString(itemId), JObject(payload.value), server);
      sent := [request];
      r := Rendered(op, out);
    }

    method Patch(raw: string, decode: string -> Decoded, server: Server)
      returns (r: Outcome<Output>, ghost sent: seq<HttpRequest>)
      ensures r == PatchSpec(State(), raw, decode, server).result
      ensures sent == PatchSpec(State(), raw, decode, server).sent
    {
      var parts := SplitMax(raw, 3);
      if |parts| < 4 {
        return Raised(ValueError("/patch <collection> <id> <json-payload>")), [];
      }
      var collection, itemId, payloadText := parts[1], parts[2], parts[3];
      var payload := ParseJson(payloadText, decode);
      if payload.Failure? {
        return Raised(payload.error), [];
      }
      var client := MakeClient();
      if client.Failure? {
        return Raised(client.error), [];
      }
      var op := PatchOp(db, collection, JString(itemId), JObject(payload.value));
      var out, request := client.value.Patch(db, collection, JString(itemId), JObject(payload.value), server);
      sent := [request];
      r := Rendered(op, out);
    }

    method Delete(parts: seq<string>, server: Server) returns (r: Outcome<Output>, ghost sent: seq<HttpRequest>)
      ensures r == DeleteSpec(State(), parts, server).result
      ensures sent == DeleteSpec(State(), parts, server).sent
    {
      if |parts| < 3 {
        return Raised(ValueError("/delete <collection> <id>")), [];
      }
      var collection, itemId := parts[1], parts[2];
      var client := MakeClient();
      if client.Failure? {
        return Raised(client.error), [];
      }
      var out, request := client.value.Delete(db, collection, JString(itemId), server);
      sent := [request];
      r := Rendered(DeleteOp(db, collection, JString(itemId)), out);
    }
  }
}
