/**
 * What python-examples/example3.py promises, proved of the `Cli` model:
 * how `parse_params` reads its tokens, what one dispatched line does to the
 * session and to the server, and how `run` goes on or ends.
 */
module CliProps {
  import opened Wrappers
  import opened PyText
  import opened JsonModel
  import opened Client
  import opened ClientProps
  import opened TextProps
  import opened Cli

  // ---------------------------------------------------------------------
  // parse_params

  /** `token.split("=", 1)` cuts at the first '=': the key holds none, the value keeps the rest. */
  lemma KeyValueSplit(token: string)
    requires '=' in token
    ensures token == KeyOf(token) + "=" + ValueOf(token)
    ensures '=' !in KeyOf(token)
  {
    var k := IndexOf(token, '=');
    assert token == token[..k] + [token[k]] + token[k + 1..];
  }

  /**
   * `parse_params` succeeds exactly when every token holds a '='; otherwise
   * it raises the `ValueError` of the first token that holds none.
   */
  lemma {:induction false} ParamsFailure(tokens: seq<string>)
    ensures ParamsOf(tokens).Success? <==> forall i :: 0 <= i < |tokens| ==> '=' in tokens[i]
    ensures ParamsOf(tokens).Failure? ==>
              exists i :: 0 <= i < |tokens| && '=' !in tokens[i]
                          && (forall j :: 0 <= j < i ==> '=' in tokens[j])
                          && ParamsOf(tokens).error == BadPair(tokens[i])
    decreases |tokens|
  {
    if tokens != [] {
      var n := |tokens| - 1;
      var init := tokens[..n];
      ParamsFailure(init);
      assert forall i :: 0 <= i < n ==> init[i] == tokens[i];
      if ParamsOf(init).Failure? {
        var i :| 0 <= i < n && '=' !in init[i] && (forall j :: 0 <= j < i ==> '=' in init[j])
                 && ParamsOf(init).error == BadPair(init[i]);
        assert '=' !in tokens[i];
      } else if '=' !in tokens[n] {
        assert forall j :: 0 <= j < n ==> '=' in tokens[j];
      }
    }
  }

  /**
   * What `parse_params` returns binds a key exactly when some token has it
   * before its first '=', and binds it to the value of the LAST such token,
   * the one at `last`.
   */
  lemma {:induction false} ParamsLastWins(tokens: seq<string>, key: string) returns (last: int)
    requires forall i :: 0 <= i < |tokens| ==> '=' in tokens[i]
    ensures ParamsOf(tokens).Success?
    ensures key !in ParamsOf(tokens).value ==> forall i :: 0 <= i < |tokens| ==> KeyOf(tokens[i]) != key
    ensures key in ParamsOf(tokens).value ==>
              0 <= last < |tokens| && KeyOf(tokens[last]) == key
              && ParamsOf(tokens).value[key] == ValueOf(tokens[last])
              && forall j :: last < j < |tokens| ==> KeyOf(tokens[j]) != key
    decreases |tokens|
  {
    last := -1;
    if tokens != [] {
      var n := |tokens| - 1;
      var init := tokens[..n];
      assert forall i :: 0 <= i < n ==> init[i] == tokens[i];
      last := ParamsLastWins(init, key);
      var m := ParamsOf(init).value;
      assert ParamsOf(tokens) == Success(m[KeyOf(tokens[n]) := ValueOf(tokens[n])]);
      if KeyOf(tokens[n]) == key {
        last := n;
      }
    }
  }

  // ---------------------------------------------------------------------
  // One line through _dispatch

  /** The lines `_dispatch` answers with the help text. */
  predicate IsHelp(raw: string) {
    raw == "/help" || raw == "help"
  }

  /** The commands that change the session. */
  predicate IsSetter(command: string) {
    command == "/url" || command == "/token" || command == "/db"
  }

  /** The help text is shown for the exact line "/help" or "help", and for nothing else. */
  lemma HelpOnlyExact(s: Session, raw: string, decode: string -> Decoded, server: Server)
    ensures Step(s, raw, decode, server).report == HelpShown <==> IsHelp(raw)
  {
    if !IsHelp(raw) && Split(raw) != [] && Split(raw)[0] in Commands {
      var h := Handle(s, Split(raw), raw, decode, server);
      assert Catch(h.result) != HelpShown;
    }
  }

  /**
   * A line's first word that is not a command is reported as unknown, and
   * nothing else happens; only `/url`, `/token` and `/db` with an argument
   * change the session, and each changes its own field to that argument.
   */
  lemma SessionChanges(s: Session, raw: string, decode: string -> Decoded, server: Server)
    requires !IsHelp(raw) && Split(raw) != []
    ensures var t := Step(s, raw, decode, server); var parts := Split(raw);
      && (t.report.UnknownCommand? <==> parts[0] !in Commands)
      && (parts[0] !in Commands ==> t == Turn(s, UnknownCommand(parts[0]), []))
      && (t.session != s ==> IsSetter(parts[0]) && |parts| >= 2)
      && (IsSetter(parts[0]) && |parts| >= 2 ==>
            t.sent == []
            && t.session.baseUrl == (if parts[0] == "/url" then parts[1] else s.baseUrl)
            && t.session.token == (if parts[0] == "/token" then parts[1] else s.token)
            && t.session.db == (if parts[0] == "/db" then parts[1] else s.db))
  {
    var parts := Split(raw);
    if parts[0] in Commands {
      var h := Handle(s, parts, raw, decode, server);
      assert Step(s, raw, decode, server) == Turn(h.session, Catch(h.result), h.sent);
      assert Catch(h.result) != UnknownCommand(parts[0]);
      if parts[0] !in SessionCommands {
        ClientKeepsSession(s, parts, raw, decode, server);
      } else {
        assert h == SessionHandle(s, parts);
      }
    }
  }

  /** The handlers that build a client never change the session. */
  lemma ClientKeepsSession(s: Session, parts: seq<string>, raw: string, decode: string -> Decoded, server: Server)
    requires parts != [] && parts[0] in Commands - SessionCommands
    ensures ClientHandle(s, parts, raw, decode, server).session == s
  {
    var command := parts[0];
    if command == "/list" && |parts| > 2 {
      assert ListSpec(s, parts, server).session == s;
    } else if command == "/create" && |SplitMax(raw, 2)| >= 3 {
      assert CreateSpec(s, raw, decode, server).session == s;
    } else if command == "/replace" && |SplitMax(raw, 3)| >= 4 {
      assert ReplaceSpec(s, raw, decode, server).session == s;
    } else if command == "/patch" && |SplitMax(raw, 3)| >= 4 {
      assert PatchSpec(s, raw, decode, server).session == s;
    }
  }

  /** `/url`, `/token` or `/db` without an argument is the `IndexError` of `parts[1]`, shown as a usage error. */
  lemma SetterWithoutArgument(s: Session, raw: string, decode: string -> Decoded, server: Server)
    requires Split(raw) != [] && IsSetter(Split(raw)[0]) && |Split(raw)| < 2
    ensures Step(s, raw, decode, server) == Turn(s, UsageError("list index out of range"), [])
  {
    assert !IsHelp(raw) by {
      if IsHelp(raw) {
        FirstWord(raw, raw);
      }
    }
  }

  /**
   * Each command checks its word count before it builds a client, so a
   * short line is a usage error, leaves the session alone and sends
   * nothing, whatever the token. `/create` counts three words and
   * `/replace` and `/patch` four although they split at most twice and
   * three times.
   */
  lemma ArityChecks(s: Session, raw: string, decode: string -> Decoded, server: Server)
    requires !IsHelp(raw) && Split(raw) != []
    ensures var t := Step(s, raw, decode, server); var parts := Split(raw);
      && (parts[0] == "/list" && |parts| < 2 ==> t == Turn(s, UsageError("/list <collection> [key=value ...]"), []))
      && (parts[0] == "/get" && |parts| < 3 ==> t == Turn(s, UsageError("/get <collection> <id>"), []))
      && (parts[0] == "/delete" && |parts| < 3 ==> t == Turn(s, UsageError("/delete <collection> <id>"), []))
      && (parts[0] == "/create" && |parts| < 3 ==> t == Turn(s, UsageError("/create <collection> <json-payload>"), []))
      && (parts[0] == "/replace" && |parts| < 4 ==> t == Turn(s, UsageError("/replace <collection> <id> <json-payload>"), []))
      && (parts[0] == "/patch" && |parts| < 4 ==> t == Turn(s, UsageError("/patch <collection> <id> <json-payload>"), []))
  {
    ShortWordCommands(s, raw, decode, server);
    ShortDocumentCommands(s, raw, decode, server);
  }

  /** The word-counting half of `ArityChecks`: `/list`, `/get` and `/delete`. */
  lemma ShortWordCommands(s: Session, raw: string, decode: string -> Decoded, server: Server)
    requires !IsHelp(raw) && Split(raw) != []
    ensures var t := Step(s, raw, decode, server); var parts := Split(raw);
      && (parts[0] == "/list" && |parts| < 2 ==> t == Turn(s, UsageError("/list <collection> [key=value ...]"), []))
      && (parts[0] == "/get" && |parts| < 3 ==> t == Turn(s, UsageError("/get <collection> <id>"), []))
      && (parts[0] == "/delete" && |parts| < 3 ==> t == Turn(s, UsageError("/delete <collection> <id>"), []))
  {
  }

  /** The `split(maxsplit=n)` half of `ArityChecks`: `/create`, `/replace` and `/patch`. */
  lemma ShortDocumentCommands(s: Session, raw: string, decode: string -> Decoded, server: Server)
    requires !IsHelp(raw) && Split(raw) != []
    ensures var t := Step(s, raw, decode, server); var parts := Split(raw);
      && (parts[0] == "/create" && |parts| < 3 ==> t == Turn(s, UsageError("/create <collection> <json-payload>"), []))
      && (parts[0] == "/replace" && |parts| < 4 ==> t == Turn(s, UsageError("/replace <collection> <id> <json-payload>"), []))
      && (parts[0] == "/patch" && |parts| < 4 ==> t == Turn(s, UsageError("/patch <collection> <id> <json-payload>"), []))
  {
    var command := Split(raw)[0];
    if command == "/create" {
      SplitMaxCount(raw, 2);
    } else if command == "/replace" || command == "/patch" {
      SplitMaxCount(raw, 3);
    }
  }

  /** With an empty token no command reaches the server: `_client()` raises first. */
  lemma EmptyTokenSendsNothing(s: Session, raw: string, decode: string -> Decoded, server: Server)
    requires s.token == ""
    ensures Step(s, raw, decode, server).sent == []
  {
    var parts := Split(raw);
    if !IsHelp(raw) && parts != [] && parts[0] in Commands - SessionCommands {
      var command := parts[0];
      if command == "/list" && |parts| > 2 {
        assert ListSpec(s, parts, server).sent == [];
      } else if command == "/create" && |SplitMax(raw, 2)| >= 3 {
        assert CreateSpec(s, raw, decode, server).sent == [];
      } else if command == "/replace" && |SplitMax(raw, 3)| >= 4 {
        assert ReplaceSpec(s, raw, decode, server).sent == [];
      } else if command == "/patch" && |SplitMax(raw, 3)| >= 4 {
        assert PatchSpec(s, raw, decode, server).sent == [];
      }
    }
  }

  // ---------------------------------------------------------------------
  // What reaches the server

  /**
   * A dispatched line sends at most one request, and only through a client
   * built from the session: the session's base URL without its trailing
   * slashes, its token as the bearer, the 5-second timeout, and the
   * session's database except for `/showdb <db>`. The report is the
   * handler's rendering of that request's outcome, `deleted` for `/delete`.
   */
  lemma SentRequest(s: Session, raw: string, decode: string -> Decoded, server: Server) returns (op: Op)
    requires !IsHelp(raw) && Split(raw) != []
    ensures var t := Step(s, raw, decode, server); var parts := Split(raw);
      && |t.sent| <= 1
      && (t.sent != [] ==>
            s.token != "" && t.session == s
            && t.sent == [SessionRequest(s, op)]
            && t.report == Catch(Rendered(op, Respond(op, server(t.sent[0]))))
            && (op.DeleteOp? <==> parts[0] == "/delete")
            && (op.db == s.db || (parts[0] == "/showdb" && |parts| > 1 && op.db == parts[1])))
  {
    var command := Split(raw)[0];
    if command in {"/showdb", "/list", "/get", "/delete"} {
      op := SentByWordCommand(s, raw, decode, server);
    } else if command in {"/create", "/replace", "/patch"} {
      op := SentByDocumentCommand(s, raw, decode, server);
    } else {
      op := DbOp(s.db);
    }
  }

  /** `SentRequest`'s conclusion for one line and the operation `op`. */
  ghost predicate SentThrough(s: Session, raw: string, decode: string -> Decoded, server: Server, op: Op)
    requires Split(raw) != []
  {
    var t := Step(s, raw, decode, server); var parts := Split(raw);
    && |t.sent| <= 1
    && (t.sent != [] ==>
          s.token != "" && t.session == s
          && t.sent == [SessionRequest(s, op)]
          && t.report == Catch(Rendered(op, Respond(op, server(t.sent[0]))))
          && (op.DeleteOp? <==> parts[0] == "/delete")
          && (op.db == s.db || (parts[0] == "/showdb" && |parts| > 1 && op.db == parts[1])))
  }

  /** `SentRequest` for the commands that take words only. */
  lemma SentByWordCommand(s: Session, raw: string, decode: string -> Decoded, server: Server) returns (op: Op)
    requires !IsHelp(raw) && Split(raw) != [] && Split(raw)[0] in {"/showdb", "/list", "/get", "/delete"}
    ensures SentThrough(s, raw, decode, server, op)
  {
    var parts := Split(raw);
    var command := parts[0];
    op := DbOp(s.db);
    if command == "/showdb" {
      op := DbOp(if |parts| > 1 then parts[1] else s.db);
    } else if command == "/list" && |parts| >= 2 {
      var params := if |parts| > 2 && ParamsOf(parts[2..]).Success? then Some(ParamsOf(parts[2..]).value) else None;
      op := ListOp(s.db, parts[1], params);
    } else if command == "/get" && |parts| >= 3 {
      op := GetOp(s.db, parts[1], JString(parts[2]));
    } else if command == "/delete" && |parts| >= 3 {
      op := DeleteOp(s.db, parts[1], JString(parts[2]));
    }
  }

  /** `SentRequest` for the commands that end in a JSON document. */
  lemma SentByDocumentCommand(s: Session, raw: string, decode: string -> Decoded, server: Server) returns (op: Op)
    requires !IsHelp(raw) && Split(raw) != [] && Split(raw)[0] in {"/create", "/replace", "/patch"}
    ensures SentThrough(s, raw, decode, server, op)
  {
    var command := Split(raw)[0];
    op := DbOp(s.db);
    if command == "/create" {
      var pieces := SplitMax(raw, 2);
      if |pieces| >= 3 && ParseJson(pieces[2], decode).Success? {
        op := CreateOp(s.db, pieces[1], JObject(ParseJson(pieces[2], decode).value));
      }
    } else {
      var pieces := SplitMax(raw, 3);
      if |pieces| >= 4 && ParseJson(pieces[3], decode).Success? {
        var doc := JObject(ParseJson(pieces[3], decode).value);
        op := if command == "/replace" then ReplaceOp(s.db, pieces[1], JString(pieces[2]), doc)
              else PatchOp(s.db, pieces[1], JString(pieces[2]), doc);
      }
    }
  }

  /** `/list <collection>` passes no query parameters at all; with filters, the parsed ones. */
  lemma ListFilters(s: Session, raw: string, decode: string -> Decoded, server: Server)
    requires !IsHelp(raw) && |Split(raw)| >= 2 && Split(raw)[0] == "/list" && s.token != ""
    ensures var t := Step(s, raw, decode, server); var parts := Split(raw);
      && (|parts| == 2 ==> t.sent == [SessionRequest(s, ListOp(s.db, parts[1], None))] && t.sent[0].params.None?)
      && (|parts| > 2 && ParamsOf(parts[2..]).Success? ==>
            t.sent == [SessionRequest(s, ListOp(s.db, parts[1], Some(ParamsOf(parts[2..]).value)))])
      && (|parts| > 2 && ParamsOf(parts[2..]).Failure? ==>
            t.sent == [] && t.report.UsageError? && t.report == Catch(Raised(ParamsOf(parts[2..]).error)))
  {
    var parts := Split(raw);
    if |parts| > 2 {
      ParamsFailure(parts[2..]);
    }
  }

  /**
   * The request `/get`, `/delete` and `/showdb <db>` send: the item named
   * by the second and third words, the id as text, in the session's
   * database; the named database for `/showdb`.
   */
  lemma WordCommandRequests(s: Session, raw: string, decode: string -> Decoded, server: Server)
    requires !IsHelp(raw) && Split(raw) != [] && s.token != ""
    ensures var t := Step(s, raw, decode, server); var parts := Split(raw);
      && (parts[0] == "/get" && |parts| >= 3 ==>
            t.sent == [SessionRequest(s, GetOp(s.db, parts[1], JString(parts[2])))])
      && (parts[0] == "/delete" && |parts| >= 3 ==>
            t.sent == [SessionRequest(s, DeleteOp(s.db, parts[1], JString(parts[2])))])
      && (parts[0] == "/showdb" && |parts| >= 2 ==>
            t.sent == [SessionRequest(s, DbOp(parts[1]))])
  {
  }

  /** `/showdb` without an argument fetches the session's database. */
  lemma ShowDbDefault(s: Session, raw: string, decode: string -> Decoded, server: Server)
    requires !IsHelp(raw) && Split(raw) == ["/showdb"] && s.token != ""
    ensures Step(s, raw, decode, server).sent == [SessionRequest(s, DbOp(s.db))]
  {
  }

  /**
   * `/create`: its JSON document is the whole rest of the line from the
   * third word on (exactly two words lie before it), spaces inside it
   * included; it is parsed before the
   * client is built, and a document that does not decode to an object is a
   * usage error that sends nothing.
   */
  lemma CreateDocument(s: Session, raw: string, decode: string -> Decoded, server: Server) returns (k: nat)
    requires !IsHelp(raw) && |Split(raw)| >= 3 && Split(raw)[0] == "/create"
    ensures k < |raw| && !IsSpace(raw[k]) && StartsWith(raw[k..], Split(raw)[2])
    ensures Split(raw[..k]) == Split(raw)[..2]
    ensures var t := Step(s, raw, decode, server); var doc := ParseJson(raw[k..], decode);
      && t.session == s
      && (doc.Failure? ==> t == Turn(s, UsageError(doc.error.message), []))
      && (t.sent != [] <==> s.token != "" && doc.Success?)
      && (t.sent != [] ==> t.sent == [SessionRequest(s, CreateOp(s.db, Split(raw)[1], JObject(doc.value)))])
  {
    SplitMaxCount(raw, 2);
    SplitMaxHead(raw, 2, 0);
    SplitMaxHead(raw, 2, 1);
    k := SplitMaxRest(raw, 2);
  }

  /**
   * `/replace` and `/patch`: the id is the third word, sent as text, and the
   * JSON document the rest of the line from the fourth word on (exactly
   * three words lie before it); a document
   * that does not decode to an object sends nothing.
   */
  lemma UpdateDocument(s: Session, raw: string, decode: string -> Decoded, server: Server) returns (k: nat)
    requires !IsHelp(raw) && |Split(raw)| >= 4 && (Split(raw)[0] == "/replace" || Split(raw)[0] == "/patch")
    ensures k < |raw| && !IsSpace(raw[k]) && StartsWith(raw[k..], Split(raw)[3])
    ensures Split(raw[..k]) == Split(raw)[..3]
    ensures var t := Step(s, raw, decode, server); var doc := ParseJson(raw[k..], decode); var parts := Split(raw);
      && t.session == s
      && (doc.Failure? ==> t == Turn(s, UsageError(doc.error.message), []))
      && (t.sent != [] <==> s.token != "" && doc.Success?)
      && (t.sent != [] && parts[0] == "/replace" ==>
            t.sent == [SessionRequest(s, ReplaceOp(s.db, parts[1], JString(parts[2]), JObject(doc.value)))])
      && (t.sent != [] && parts[0] == "/patch" ==>
            t.sent == [SessionRequest(s, PatchOp(s.db, parts[1], JString(parts[2]), JObject(doc.value)))])
  {
    SplitMaxCount(raw, 3);
    SplitMaxHead(raw, 3, 0);
    SplitMaxHead(raw, 3, 1);
    SplitMaxHead(raw, 3, 2);
    k := SplitMaxRest(raw, 3);
  }

  /**
   * How the answer to a sent request is shown: an HTTP error as an API
   * error with its status and message, its payload only when that is
   * truthy; a refused URL, and a success response whose JSON body does not
   * decode, as usage errors; a connection failure escapes `_dispatch`.
   */
  lemma ReplyReport(s: Session, raw: string, decode: string -> Decoded, server: Server)
    requires !IsHelp(raw) && Split(raw) != [] && Step(s, raw, decode, server).sent != []
    ensures var t := Step(s, raw, decode, server); var reply := server(t.sent[0]);
      && (reply.Received? && ErrorOf(reply.response).JsonServerError? && !IsOk(reply.response.status) ==>
            var e := ErrorOf(reply.response);
            t.report == ApiError(reply.response.status, e.message, if PayloadTruthy(e.payload) then Some(e.payload) else None))
      && (reply.Refused? ==> t.report == UsageError(reply.message))
      && (reply.Received? && IsOk(reply.response.status) && reply.response.status != 204
          && StartsWith(reply.response.contentType, "application/json") && reply.response.json.Malformed? ==>
            t.report == UsageError(reply.response.json.message))
      && (reply.TransportFailed? ==> t.report == Crashed(TransportError))
      && (Complete(reply).Ok? ==>
            t.report == Printed(if Split(raw)[0] == "/delete" then Deleted else Pretty(Complete(reply).value)))
  {
    var op := SentRequest(s, raw, decode, server);
  }

  // ---------------------------------------------------------------------
  // run

  /** End of input, Ctrl-C, and a line that trims to an exit word end `run` at once, session as it was. */
  lemma RunEnds(s: Session, input: Input, rest: seq<Input>, decode: string -> Decoded, server: Server)
    requires input.EndOfInput? || input.Interrupt? || (input.Line? && Strip(input.text, Whitespace) in ExitWords)
    ensures RunSpec(s, [input] + rest, decode, server) == RunResult(s, [], Bye)
  {
  }

  /** A line that trims to nothing prompts again, with no report and no effect. */
  lemma BlankLineSkipped(s: Session, text: string, rest: seq<Input>, decode: string -> Decoded, server: Server)
    requires Strip(text, Whitespace) == ""
    ensures RunSpec(s, [Line(text)] + rest, decode, server) == RunSpec(s, rest, decode, server)
  {
    assert ([Line(text)] + rest)[1..] == rest;
  }

  /**
   * A non-blank line that is not an exit word and whose handling raised
   * nothing uncaught — a usage error, an API error or a success alike —
   * leaves `run` reading the next line, from the state the line left.
   */
  lemma RunContinues(s: Session, text: string, rest: seq<Input>, decode: string -> Decoded, server: Server)
    requires Strip(text, Whitespace) != "" && Strip(text, Whitespace) !in ExitWords
    requires !Step(s, Strip(text, Whitespace), decode, server).report.Crashed?
    ensures var t := Step(s, Strip(text, Whitespace), decode, server);
      RunSpec(s, [Line(text)] + rest, decode, server) == After([t.report], RunSpec(t.session, rest, decode, server))
  {
    assert ([Line(text)] + rest)[1..] == rest;
  }

  /**
   * Only the exact exit words end the run: a line whose first word is one
   * but which goes on after it is dispatched, reported as an unknown
   * command, and the run continues with the session unchanged.
   */
  lemma ExitWordWithMore(s: Session, text: string, rest: seq<Input>, decode: string -> Decoded, server: Server)
    requires Strip(text, Whitespace) !in ExitWords
    requires Split(Strip(text, Whitespace)) != [] && Split(Strip(text, Whitespace))[0] in ExitWords
    ensures RunSpec(s, [Line(text)] + rest, decode, server)
         == After([UnknownCommand(Split(Strip(text, Whitespace))[0])], RunSpec(s, rest, decode, server))
  {
    var raw := Strip(text, Whitespace);
    assert !IsHelp(raw) by {
      if IsHelp(raw) {
        FirstWord(raw, raw);
      }
    }
    assert Step(s, raw, decode, server) == Turn(s, UnknownCommand(Split(raw)[0]), []);
    assert ([Line(text)] + rest)[1..] == rest;
  }

  /** " /exit now " trims to "/exit now", whose first word is "/exit". */
  lemma ExitWithArgumentWords()
    ensures Strip(" /exit now ", Whitespace) == "/exit now"
    ensures Split("/exit now") != [] && Split("/exit now")[0] == "/exit"
  {
    ExitLineStrips();
    ExitLineFirstWord();
  }

  /** `" /exit now ".strip()` is "/exit now". */
  lemma ExitLineStrips()
    ensures Strip(" /exit now ", Whitespace) == "/exit now"
  {
    assert SpanFrom(" /exit now ", 0, Whitespace) == 1;
    assert SpanBackTo(" /exit now ", 1, 11, Whitespace) == 10;
  }

  /** `"/exit now".split()[0]` is "/exit". */
  lemma ExitLineFirstWord()
    ensures Split("/exit now") != [] && Split("/exit now")[0] == "/exit"
  {
    var raw := "/exit now";
    assert raw[..5] == "/exit";
    FirstWord(raw, "/exit");
  }

  /** So " /exit now " is reported as the unknown command "/exit" and the run goes on. */
  lemma ExitWithArgumentIsDispatched(s: Session, rest: seq<Input>, decode: string -> Decoded, server: Server)
    ensures RunSpec(s, [Line(" /exit now ")] + rest, decode, server)
         == After([UnknownCommand("/exit")], RunSpec(s, rest, decode, server))
  {
    ExitWithArgumentWords();
    ExitWordWithMore(s, " /exit now ", rest, decode, server);
  }

  /** The errors an operation can raise once the transport has answered. */
  lemma CompleteErrors(reply: Reply)
    ensures Complete(reply).Raised? ==>
              var e := Complete(reply).error;
              e.TransportError? || e.ValueError? || e.JsonServerError? || e.AttributeError?
  {
  }

  /**
   * Of what a non-blank line can raise, `_dispatch` lets through only a
   * connection failure and the `AttributeError` of an error body that is
   * JSON but not an object.
   */
  lemma CrashesAreUnexpected(s: Session, raw: string, decode: string -> Decoded, server: Server)
    requires Split(raw) != []
    ensures var r := Step(s, raw, decode, server).report;
      r.Crashed? ==> r.error.TransportError? || r.error.AttributeError?
  {
    var t := Step(s, raw, decode, server);
    var parts := Split(raw);
    if !IsHelp(raw) && parts[0] in Commands {
      if t.sent != [] {
        var op := SentRequest(s, raw, decode, server);
        CompleteErrors(server(t.sent[0]));
      } else if parts[0] !in SessionCommands {
        var command := parts[0];
        if command == "/list" && |parts| > 2 {
          ParamsFailure(parts[2..]);
          assert ListSpec(s, parts, server).result.Raised? ==> ListSpec(s, parts, server).result.error.ValueError?;
        } else if command == "/create" && |SplitMax(raw, 2)| >= 3 {
          assert CreateSpec(s, raw, decode, server).result.Raised? ==> CreateSpec(s, raw, decode, server).result.error.ValueError?;
        } else if command == "/replace" && |SplitMax(raw, 3)| >= 4 {
          assert ReplaceSpec(s, raw, decode, server).result.Raised? ==> ReplaceSpec(s, raw, decode, server).result.error.ValueError?;
        } else if command == "/patch" && |SplitMax(raw, 3)| >= 4 {
          assert PatchSpec(s, raw, decode, server).result.Raised? ==> PatchSpec(s, raw, decode, server).result.error.ValueError?;
        }
      }
    }
  }

  /**
   * `run` reports at most one thing per line it reads; an API or usage
   * error does not stop it, so no report it collects is a crash; and the
   * only exceptions that can end it are a connection failure and an
   * `AttributeError` from an error body that is not a JSON object.
   */
  lemma {:induction false} RunReports(s: Session, inputs: seq<Input>, decode: string -> Decoded, server: Server)
    ensures var r := RunSpec(s, inputs, decode, server);
      && |r.reports| <= |inputs|
      && (forall i :: 0 <= i < |r.reports| ==> !r.reports[i].Crashed?)
      && (r.ending.Uncaught? ==> r.ending.error.TransportError? || r.ending.error.AttributeError?)
    decreases |inputs|
  {
    if inputs != [] {
      var input := inputs[0];
      if input.Line? && Strip(input.text, Whitespace) != "" {
        var raw := Strip(input.text, Whitespace);
        StrippedHasWord(input.text);
        CrashesAreUnexpected(s, raw, decode, server);
      }
      match Consume(s, input, decode, server)
      case Halt(_) =>
      case Next(next, reports) =>
        RunReports(next, inputs[1..], decode, server);
    }
  }
}
