/**
 * JSON values as Python's `json` module hands them over (`None`, `bool`,
 * `int`, `str`, `list`, `dict`), with the Python truthiness and `str()` that
 * the client and the shell apply to them.
 */
module JsonModel {
  import opened Wrappers
  import opened PyText

  /** A decoded JSON value; an object keeps its members in insertion order, like a `dict`. */
  datatype Json =
    | JNull
    | JBool(b: bool)
    | JNumber(n: int)
    | JString(s: string)
    | JArray(items: seq<Json>)
    | JObject(fields: seq<(string, Json)>)

  /** What `json.loads` makes of a text: a value, or the decoder's complaint. */
  datatype Decoded = Parsed(value: Json) | Malformed(message: string)

  /** Python's `bool(j)`. */
  predicate Truthy(j: Json) {
    match j
    case JNull => false
    case JBool(b) => b
    case JNumber(n) => n != 0
    case JString(s) => s != ""
    case JArray(items) => items != []
    case JObject(fields) => fields != []
  }

  /** `d.get(key)`: the value bound to `key`, the later binding winning as in `json.loads`. */
  function Get(fields: seq<(string, Json)>, key: string): (r: Option<Json>)
    ensures r.None? <==> forall i :: 0 <= i < |fields| ==> fields[i].0 != key
    ensures r.Some? ==> exists i :: 0 <= i < |fields| && fields[i] == (key, r.value)
                                    && forall j :: i < j < |fields| ==> fields[j].0 != key
  {
    if fields == [] then None
    else if fields[|fields| - 1].0 == key then Some(fields[|fields| - 1].1)
    else Get(fields[..|fields| - 1], key)
  }

  /** Python's `str(j)`: a string is itself, anything else its `repr`. */
  function Str(j: Json): string {
    match j
    case JString(s) => s
    case _ => Repr(j)
  }

  /** Python's `repr(j)` for the JSON types. */
  function Repr(j: Json): string
    decreases j
  {
    match j
    case JNull => "None"
    case JBool(b) => if b then "True" else "False"
    case JNumber(n) => IntToString(n)
    case JString(s) => Quote(s)
    case JArray(items) =>
      "[" + Join(", ", seq(|items|, i requires 0 <= i < |items| => Repr(items[i]))) + "]"
    case JObject(fields) =>
      "{" + Join(", ", seq(|fields|, i requires 0 <= i < |fields| => Quote(fields[i].0) + ": " + Repr(fields[i].1))) + "}"
  }

  /**
   * `repr(s)` for a string: single quotes unless the text holds a single
   * quote and no double one; inside, the chosen quote and backslashes are
   * escaped, and so are tab, newline, carriage return and the other ASCII
   * control characters.
   */
  function Quote(s: string): (r: string)
    ensures |r| >= 2 && r[0] == r[|r| - 1]
    ensures r[0] == '"' <==> '\'' in s && '"' !in s
  {
    var quote := if '\'' in s && '"' !in s then '"' else '\'';
    [quote] + Escaped(s, quote) + [quote]
  }

  /** The characters of a string literal's body, each escaped as `repr` escapes it inside `quote`. */
  function Escaped(s: string, quote: char): string
    decreases |s|
  {
    if s == [] then "" else EscapeChar(s[0], quote) + Escaped(s[1..], quote)
  }

  /** One character as `repr` writes it inside a literal delimited by `quote`. */
  function EscapeChar(c: char, quote: char): string {
    if c == quote || c == '\\' then ['\\', c]
    else if c == '\t' then "\\t"
    else if c == '\n' then "\\n"
    else if c == '\r' then "\\r"
    else if c < ' ' || c as int == 127 then "\\x" + [HexDigit(c as int / 16), HexDigit(c as int % 16)]
    else [c]
  }

  function HexDigit(d: nat): char
    requires d < 16
  {
    "0123456789abcdef"[d]
  }

  /** A character `repr` writes as itself inside either kind of quote. */
  predicate Plain(c: char) {
    c != '\'' && c != '"' && c != '\\' && ' ' <= c && c as int != 127
  }

  /** Text made of plain characters is its own escape. */
  lemma {:induction false} EscapedPlain(s: string, quote: char)
    requires quote == '\'' || quote == '"'
    requires forall i :: 0 <= i < |s| ==> Plain(s[i])
    ensures Escaped(s, quote) == s
    decreases |s|
  {
    if s != [] {
      EscapedPlain(s[1..], quote);
      assert s == [s[0]] + s[1..];
    }
  }

  /** `repr` of text made of plain characters is that text in single quotes. */
  lemma QuotePlain(s: string)
    requires forall i :: 0 <= i < |s| ==> Plain(s[i])
    ensures Quote(s) == "'" + s + "'"
  {
    EscapedPlain(s, '\'');
  }

  /** Both kinds of quote in the text: single quotes, the inner single quote escaped. */
  lemma QuoteBothKinds()
    ensures Quote("a'\"") == "'a\\'\"'"
  {
    var s := "a'\"";
    assert '\'' in s && '"' in s;
    assert Escaped(s, '\'') == "a\\'\"" by {
      assert s[1..][1..][1..] == [];
    }
  }

  /** `str(n)` for an integer. */
  function IntToString(n: int): string {
    if n < 0 then "-" + NatToString(-n) else NatToString(n)
  }

  function NatToString(n: nat): string
    decreases n
  {
    if n < 10 then ["0123456789"[n]] else NatToString(n / 10) + ["0123456789"[n % 10]]
  }
}
