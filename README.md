# go-json-server Python client and shell, modelled in Dafny

This project models the Python side of go-json-server:

- `python-examples/client.py` is `JsonServerClient`. It is a thin HTTP client that maps the CRUD operations `list`, `get`, `create`, `replace`, `patch`, `delete`, `db` and `db_ids` onto requests against `<base>/api/<db>[/<collection>[/<id>]]`.
  - The bearer token is attached to every request.
  - A 4xx/5xx response becomes a `JsonServerError`.
- `python-examples/example3.py` is the interactive shell `InteractiveCLI`.
  - It holds a session of three strings: base URL, token and default database.
  - It reads lines and trims them.
  - Each client command (`/showdb`, `/list`, `/get`, `/create`, `/replace`, `/patch`, `/delete`) checks its arguments and then builds a fresh client. `/showdb` has no argument to check.
  - The setters `/url`, `/token` and `/db` and `/state` only touch the session.
  - It shows usage errors and API errors and goes on.

Files:

| file | module | contents |
|---|---|---|
| `wrappers.dfy` | `Wrappers` | `Option`, `Result` |
| `pytext.dfy` | `PyText` | The Python `str` operations the code relies on: `isspace`, `strip`, `rstrip`, `split()`, `split(maxsplit=n)`, `find`, `join`. They are written as scans over positions of one string. |
| `text_props.dfy` | `TextProps` | How `split(maxsplit=n)` relates to `split()`, plus the facts about first words and joins. |
| `json_model.dfy` | `JsonModel` | Decoded JSON values: `None`, `bool`, `int`, `str`, `list`, and objects as member lists in insertion order. It gives Python's truthiness, `dict.get` (the last binding of a key wins), `str` and `repr`, including `repr`'s quoting and escaping of strings. |
| `client.dfy` | `Client` | `JsonServerClient` as a class over a `requests.Session`-like `HttpSession`. Every operation is a method tied to a pure request/response specification. |
| `client_props.dfy` | `ClientProps` | URL shape, the request of each operation, response decoding order, the error message rules, `db_ids`. |
| `cli.dfy` | `Cli` | `parse_params`, `parse_json`, and `InteractiveCLI` as a class with the three session fields. Each handler is a method tied to a specification function of the session. |
| `cli_props.dfy` | `CliProps` | `parse_params` semantics, what one dispatched line does to the session and to the server, and how `run` continues or ends. |

The outside world becomes parameters:
- The network is `server: HttpRequest -> Reply`. The transport delivers either a response, a refusal of the URL (requests' `MissingSchema`/`InvalidURL`, which are `ValueError`s), or a connection failure/timeout.
- The `sent` requests of a line are the requests handed to the session. A request whose URL requests refuses is listed there too, although nothing reaches the network for it.
- `resp.json()` is the `json` field of the response (`Parsed` value or `Malformed` text).
- The shell's `json.loads` is a parameter `decode`.
- Console input is a sequence of `Input`s: a line, end of input, or Ctrl-C.
- Printed output is the `Report` of each dispatched line.

Python exceptions are the values of `PyError`. An operation returns `Outcome`: the value, or the exception it raises.

The code behaves as follows in cases where a reader might expect otherwise; the model keeps this behaviour:

- A connection failure or timeout is not caught by `_dispatch`. It ends `run` (`Ending.Uncaught(TransportError)`) instead of being reported and the loop continuing.
- A missing token is not fatal before the loop. `_client()` raises `ValueError("token is required")` inside the handler's `try`, so it is shown as a usage error and the loop goes on. Nothing is sent.
- `db_ids` does not propagate a `JsonServerError` other than 404. It falls off its `except` block and returns `None`.
- A 4xx/5xx response whose body is JSON but not an object makes `_raise_error` raise `AttributeError` (`payload.get` on a list). That escapes both `db_ids` and `_dispatch`.
- A 2xx response with a JSON content type and an undecodable body raises requests' `JSONDecodeError`, a `ValueError`. The shell shows it as a usage error although a request was sent.

## Model

| member | source | states |
|---|---|---|
| `PyText.Strip` | python-examples/client.py:115-116 | `s.strip(chars)` is no longer than `s`, and is empty or begins and ends with a character outside the stripped class |
| `PyText.StripTrims` | python-examples/example3.py:61 | what `strip` removes is class characters at the two ends only: the result is a contiguous slice of `s` whose prefix and suffix consist of stripped-class characters |
| `PyText.RStrip` | python-examples/client.py:42 | `rstrip("/")` is a prefix of the input, all it cut is '/', and it does not end with '/' |
| `PyText.IndexOf` | python-examples/example3.py:36 | the first '=' of a token: not in the part before it, at the index when present, and the length exactly when absent |
| `PyText.SplitMax` | python-examples/example3.py:152 | `split(maxsplit=n)` yields at most `n + 1` pieces |
| `TextProps.SplitWords` | python-examples/example3.py:76 | every word of `raw.split()` is non-empty and has no whitespace |
| `TextProps.SplitMaxCount` | python-examples/example3.py:152-154 | `split(maxsplit=n)` has `min(len(split()), n + 1)` pieces, so the `< 3` / `< 4` checks count words |
| `TextProps.SplitMaxHead` | python-examples/example3.py:155 | the first `n` pieces of `split(maxsplit=n)` are the first `n` words of `split()` |
| `TextProps.SplitMaxRest` | python-examples/example3.py:165 | the last of `n + 1` pieces is the whole suffix of the line that starts at the `n + 1`-th word, inner whitespace included; exactly the first `n` words lie before that start |
| `TextProps.FirstWord` | python-examples/example3.py:76-77 | a line that starts with a whitespace-free word followed by whitespace or the end has that word as `parts[0]` |
| `TextProps.StrippedHasWord` | python-examples/example3.py:65-77 | a line that trims to something non-empty has a first word, so `parts[0]` cannot fail after `run`'s blank-line check |
| `TextProps.JoinAppend` | python-examples/client.py:116 | `"/".join(a + b)` is `"/".join(a) + "/" + "/".join(b)` for non-empty `a`, `b` |
| `JsonModel.Quote` | python-examples/example3.py:35 | `repr(s)` is delimited by one quote kind on both ends, and that kind is `"` exactly when the text has a `'` and no `"` |
| `JsonModel.QuotePlain` | python-examples/example3.py:35 | text without quotes, backslashes or control characters is `repr`'d as itself in single quotes |
| `JsonModel.QuoteBothKinds` | python-examples/client.py:106 | with both quote kinds in the text, `repr` uses single quotes and escapes the inner `'`: `repr("a'\"")` is `'a\'"'` |
| `JsonModel.Get` | python-examples/client.py:106 | `payload.get(key)` is `None` iff no member has the key, otherwise the value of the last member with that key |
| `Client.StripSlashes` | python-examples/client.py:116 | every path part is stripped of '/', and there are as many parts as before |
| `Client.ErrorOf` | python-examples/client.py:103-110 | `_raise_error` raises `AttributeError` exactly when the body is JSON but not an object; otherwise a `JsonServerError` with the response status, whose payload is the parsed JSON, or the raw text when the body is not JSON |
| `Client.Complete` | python-examples/client.py:94-101 | a transport failure raises, a refused URL raises `ValueError`, and a 4xx/5xx response raises `_raise_error`'s error before anything is decoded; a returned value comes only from a non-failure response |
| `Client.Respond` | python-examples/client.py:47-73 | `list`, `get`, `create`, `replace`, `patch` and `db` return `_request`'s outcome unchanged, value or exception; `delete` returns `None` whenever its request succeeds and raises `_request`'s own exception otherwise |
| `Client.JoinStripped` | python-examples/client.py:116 | the join loop yields `"/".join(part.strip("/") for part in parts)` |
| `Client.HttpSession.constructor` | python-examples/client.py:44 | a new session starts with no headers of its own |
| `Client.WithAuthorization` | python-examples/client.py:45 | after the case-insensitive `headers.update`: `Authorization` maps to `Bearer <token>`, every header whose lower-case name is `authorization` under another spelling is gone, and every other header is kept with its value |
| `Client.JsonServerClient.constructor` | python-examples/client.py:42-45 | base URL is `base_url.rstrip("/")`, the timeout is kept, and the session's headers become `WithAuthorization` of the old ones |
| `Client.JsonServerClient.Url` | python-examples/client.py:112-116 | `_url` yields base, "api", db and the segments, each stripped of '/' and joined by '/' |
| `Client.JsonServerClient.Request` | python-examples/client.py:86-101 | `_request` sends one request with the verb, URL, params, body, session headers and timeout, and returns `Complete` of the reply: failure status first, then 204, then JSON by content type, then text |
| `Client.JsonServerClient.List` | python-examples/client.py:47-49 | `list` sends GET on the collection URL with the caller's params |
| `Client.JsonServerClient.Get` | python-examples/client.py:51-53 | `get` sends GET on the item URL built from `str(item_id)` |
| `Client.JsonServerClient.Create` | python-examples/client.py:55-57 | `create` sends POST on the collection URL with the payload as JSON body |
| `Client.JsonServerClient.Replace` | python-examples/client.py:59-61 | `replace` sends PUT on the item URL with the payload |
| `Client.JsonServerClient.Patch` | python-examples/client.py:63-65 | `patch` sends PATCH on the item URL with the payload |
| `Client.JsonServerClient.Delete` | python-examples/client.py:67-69 | `delete` sends DELETE on the item URL and returns `None` on success |
| `Client.JsonServerClient.Db` | python-examples/client.py:71-73 | `db` sends GET on `<base>/api/<db>` |
| `Client.JsonServerClient.DbIds` | python-examples/client.py:75-82 | `db_ids` sends `list` without params and returns the ids, `[]` on 404, `None` on any other `JsonServerError` |
| `Client.NewClient` | python-examples/client.py:40-44 | an empty token raises `ValueError("token is required")` and leaves the given session untouched; otherwise a client over the given session, or over a fresh one |
| `Client.StripSlashesTwice` | python-examples/client.py:115-116 | stripping the segments again inside the join changes nothing |
| `Client.StripIdempotent` | python-examples/client.py:115-116 | stripping twice is stripping once |
| `ClientProps.UrlShape` | python-examples/client.py:112-116 | every URL is `strip(base) + "/api/" + strip(db)`, then `"/" + strip(seg)` for each segment |
| `ClientProps.ItemUrl` | python-examples/client.py:51-53 | an item URL is the collection URL + "/" + `str(id)` stripped of '/' |
| `ClientProps.NumericItemUrl` | python-examples/client.py:53 | an integer id appears in the URL exactly as its decimal `str()` |
| `ClientProps.UrlSingleSlashes` | python-examples/client.py:112-116 | when db and segments have no "//" and do not strip to nothing, everything after the base has no two slashes in a row |
| `ClientProps.EmptyDbDoublesSlash` | python-examples/client.py:116 | a db that strips to nothing yields `<base>/api//...`, so single slashes need non-empty parts |
| `ClientProps.RStripKeepsUrls` | python-examples/client.py:42 | the `rstrip("/")` in `__init__` never changes a URL `_url` builds |
| `ClientProps.StripAfterRStrip` | python-examples/client.py:42 | `s.rstrip("/").strip("/") == s.strip("/")` |
| `ClientProps.AuthorizationReplaced` | python-examples/client.py:45 | a caller's session holding `authorization: Basic x` and `Accept` ends up with `Authorization: Bearer <token>` and the same `Accept`, and nothing else |
| `ClientProps.RequestMapping` | python-examples/client.py:47-73 | verb per operation; a body exactly for create/replace/patch, and it is the payload; params only for list; session headers and timeout; the item URL extends the collection URL by `str(id)` |
| `ClientProps.ResponseOrder` | python-examples/client.py:94-101 | a failure status raises whatever the body; 204 gives `None` whatever the content type; JSON is returned iff the content type starts with `application/json` and the body decodes; otherwise the text |
| `ClientProps.DeleteReturnsNone` | python-examples/client.py:67-69 | `delete` succeeds exactly when its request does, and then returns `None` |
| `ClientProps.ErrorMessageRules` | python-examples/client.py:103-110 | the message is `str(error)` for a truthy "error" member, else the whole object's `str`; for a non-JSON body the text, else the reason phrase |
| `ClientProps.NotFoundError` | python-examples/client.py:105-106 | a 404 with `{"error": "not found"}` becomes `JsonServerError(404, "not found")` |
| `ClientProps.FalsyErrorShowsObject` | python-examples/client.py:106 | an empty "error" member is falsy, so the message is `{'error': ''}` |
| `ClientProps.EmptyBodyUsesReason` | python-examples/client.py:107-109 | an empty non-JSON body gives the reason phrase, or "None" when there is none |
| `ClientProps.IdsInOrder` | python-examples/client.py:78 | ids come in item order iff every item is an object with an "id"; otherwise the first bad item raises `KeyError("id")` or `TypeError` |
| `ClientProps.DbIdsErrors` | python-examples/client.py:77-82 | 404 gives `[]`, another HTTP error gives `None`, an error body that is a JSON non-object raises `AttributeError`, and a transport failure propagates |
| `ClientProps.DbIdsListed` | python-examples/client.py:77-79 | a JSON list of items with ids gives exactly those ids in order |
| `Cli.ParseParams` | python-examples/example3.py:31-38 | the loop over tokens computes `ParamsOf`, the token-by-token specification |
| `Cli.ParseJson` | python-examples/example3.py:41-48 | succeeds exactly when the text decodes to a JSON object and returns its members; every failure is a `ValueError` |
| `Cli.InteractiveCli.constructor` | python-examples/example3.py:52-55 | the session starts from the three defaults |
| `Cli.InteractiveCli.Run` | python-examples/example3.py:57-70 | the reports, the ending and the final session are those of `RunSpec` on the inputs |
| `Cli.InteractiveCli.Feed` | python-examples/example3.py:60-70 | one loop iteration: EOF and Ctrl-C end, a blank line re-prompts, an exit word ends, anything else is dispatched |
| `Cli.InteractiveCli.Dispatch` | python-examples/example3.py:72-108 | new session, report and requests sent are `Step` of the old session: help, `parts[0]`, handler, `except` clauses |
| `Cli.InteractiveCli.HandleSession` | python-examples/example3.py:79-86 | `/url`, `/token`, `/db`, `/state` branches |
| `Cli.InteractiveCli.HandleClient` | python-examples/example3.py:87-100 | branches that build a client |
| `Cli.InteractiveCli.MakeClient` | python-examples/example3.py:110-111 | a client over the session's URL without its trailing '/', and its token as bearer; `ValueError` when the token is empty |
| `Cli.InteractiveCli.SetUrl` | python-examples/example3.py:113-115 | base URL becomes `parts[1]`; `IndexError` without it |
| `Cli.InteractiveCli.SetToken` | python-examples/example3.py:117-119 | token becomes `parts[1]`; `IndexError` without it |
| `Cli.InteractiveCli.SetDb` | python-examples/example3.py:121-123 | database becomes `parts[1]`; `IndexError` without it |
| `Cli.InteractiveCli.PrintState` | python-examples/example3.py:125-128 | shows the current session |
| `Cli.InteractiveCli.ShowDb` | python-examples/example3.py:130-133 | fetches `parts[1]` or the session's database |
| `Cli.InteractiveCli.List` | python-examples/example3.py:135-141 | usage error without a collection; filters parsed before the client is built; `params=None` without filters |
| `Cli.InteractiveCli.Get` | python-examples/example3.py:143-148 | usage error with fewer than 3 words, else `get` on the session's database |
| `Cli.InteractiveCli.Create` | python-examples/example3.py:150-158 | `split(maxsplit=2)`, usage error below 3 pieces, JSON parsed before the client is built |
| `Cli.InteractiveCli.Replace` | python-examples/example3.py:160-168 | `split(maxsplit=3)`, usage error below 4 pieces, JSON parsed before the client is built |
| `Cli.InteractiveCli.Patch` | python-examples/example3.py:170-178 | as `/replace`, with PATCH |
| `Cli.InteractiveCli.Delete` | python-examples/example3.py:180-186 | usage error with fewer than 3 words; prints `deleted` whatever the response body |
| `CliProps.KeyValueSplit` | python-examples/example3.py:36 | `token.split("=", 1)` cuts at the first '=': key has no '=', value keeps the rest, and key + "=" + value is the token |
| `CliProps.ParamsFailure` | python-examples/example3.py:33-35 | `parse_params` succeeds iff every token has '='; otherwise it raises the `ValueError` of the first token without one |
| `CliProps.ParamsLastWins` | python-examples/example3.py:36-37 | a key is bound iff some token has it, and to the value of the last such token |
| `CliProps.HelpOnlyExact` | python-examples/example3.py:73-75 | help is shown iff the line is exactly "/help" or "help" |
| `CliProps.SessionChanges` | python-examples/example3.py:79-102 | an unknown first word is reported and changes nothing; only `/url`, `/token`, `/db` with an argument change the session, each only its own field |
| `CliProps.ClientKeepsSession` | python-examples/example3.py:130-186 | the handlers that build a client never change the session |
| `CliProps.SetterWithoutArgument` | python-examples/example3.py:113-123 | a setter without argument is the `IndexError` shown as a usage error, session unchanged, nothing sent |
| `CliProps.ArityChecks` | python-examples/example3.py:135-186 | `/list` below 2 words, `/get`, `/delete`, `/create` below 3, `/replace`, `/patch` below 4: usage error, nothing sent, whatever the token |
| `CliProps.EmptyTokenSendsNothing` | python-examples/example3.py:110-111 | with an empty token no line sends a request |
| `CliProps.SentRequest` | python-examples/example3.py:110-186 | a line sends at most one request, with the session's token, the rstripped base URL, the 5 s timeout and the session's database (except `/showdb <db>`); the report renders that request's outcome |
| `CliProps.ListFilters` | python-examples/example3.py:135-141 | `/list c` passes no params; with filters, the parsed map; a bad filter is a usage error that sends nothing |
| `CliProps.WordCommandRequests` | python-examples/example3.py:130-186 | with a token, `/get c id` sends GET for item `id` of `c` in the session's database, `/delete c id` the matching DELETE, and `/showdb d` GET on database `d` |
| `CliProps.ShowDbDefault` | python-examples/example3.py:130-133 | `/showdb` alone fetches the session's database |
| `CliProps.CreateDocument` | python-examples/example3.py:150-158 | the JSON is the line's whole remainder from the start of the third word, with exactly the first two words before it; a non-object or undecodable document is a usage error that sends nothing; otherwise exactly that object is POSTed |
| `CliProps.UpdateDocument` | python-examples/example3.py:160-178 | the id is the third word, the JSON the remainder from the start of the fourth word, with exactly the first three words before it; bad JSON sends nothing |
| `CliProps.ReplyReport` | python-examples/example3.py:103-108 | an HTTP error shows status and message, and the payload only if truthy; a refused URL and an undecodable 2xx JSON body are usage errors; a transport failure escapes |
| `CliProps.RunEnds` | python-examples/example3.py:59-69 | EOF, Ctrl-C and an exact exit word end `run` at once without raising |
| `CliProps.BlankLineSkipped` | python-examples/example3.py:65-66 | a line that trims to nothing re-prompts with no effect |
| `CliProps.RunContinues` | python-examples/example3.py:61-108 | a non-blank, non-exit line whose handling raised nothing uncaught (success, usage error or API error) adds its one report, and `run` goes on with the next line from the session it left |
| `CliProps.ExitWordWithMore` | python-examples/example3.py:67-70 | a line that begins with an exit word and goes on is dispatched as an unknown command and the run continues |
| `CliProps.ExitWithArgumentWords` | python-examples/example3.py:61 | " /exit now " trims to "/exit now", whose first word is "/exit" |
| `CliProps.ExitWithArgumentIsDispatched` | python-examples/example3.py:67-70 | " /exit now " does not end the run: it reports the unknown command "/exit" |
| `CliProps.CompleteErrors` | python-examples/client.py:94-110 | a request raises only a transport failure, a `ValueError`, a `JsonServerError` or an `AttributeError` |
| `CliProps.CrashesAreUnexpected` | python-examples/example3.py:103-108 | of what a non-blank line raises, only a transport failure or `AttributeError` escapes `_dispatch` |
| `CliProps.RunReports` | python-examples/example3.py:57-70 | at most one report per input; no collected report is a crash; `run` can end by an exception only through a transport failure or `AttributeError` |

## Left out

- Console text is not modelled. The welcome banner, the help text, the "bye" line, `pretty_print`'s `json.dumps(indent=2)` layout and the exact wording of printed lines are out. A report keeps the kind and the key values of what is printed.
- JSON text encoding and decoding is not modelled; it is the `decode` parameter and the `json` field of a response. Request bodies and query parameters stay structured values; URL encoding of query strings is out.
- Floating-point JSON numbers are not modelled: numbers are integers.
- `repr` of strings writes every character at or above U+0080 as itself; Python escapes the ones it deems unprintable as `\x`, `\u` or `\U`.
- JsonModel.Repr: an object with a repeated key is rendered with every member, whereas the `dict` that `json.loads` builds from such a document keeps one member per key (first position, last value); the shell likewise sends such a decoded document with all its members. `decode` and response bodies are not required to be free of repeated keys.
- Cli.InteractiveCli.Run: one `server` function answers every request of a run, so equal requests always get equal replies; a server whose answers depend on earlier requests (a `/get` after a `/delete` of the same item) is not covered by `Run`'s contract or by `RunSpec`.
- `Client.WithAuthorization`: header names are compared after lower-casing ASCII letters only; requests lower-cases with Python's full Unicode `str.lower`, which also folds non-ASCII letters.
- `Client.HttpSession.constructor`: requests' default session headers (User-Agent, Accept, …) are not modelled; a new session starts empty.
- The transport's internals are the `server` parameter: connection handling, redirects, timeouts and TLS are out. A timeout or connection error is `TransportFailed`, and a URL that requests refuses is `Refused`.
- The timeout is modelled as a value carried on each request, not as a clock.
- `get`'s unused `payload` parameter is left out.
- `JsonServerError.__str__` (`"<status>: <message>"`) is not modelled; the shell prints status and message separately.
- A `KeyboardInterrupt` raised while a command is being dispatched is not modelled. Only one at the prompt is.
- The module-level defaults read from environment variables are the constructor's `defaults` argument.
- Running out of scripted input lines is treated as end of input.
- The other examples (`example.py`, `example2.py`, `example4.py`, `example.js`) and the Go server are not part of this model.
