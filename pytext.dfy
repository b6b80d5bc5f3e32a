/**
 * The parts of Python's `str` that the client and the shell rely on:
 * `isspace`, `strip` / `rstrip` (of whitespace or of '/'), `split()` with
 * and without `maxsplit`, `startswith`, `find` and `sep.join`.
 *
 * The scans work on positions of the one string they are given, the way
 * CPython's own loops do, rather than on ever shorter slices.
 */
module PyText {

  /** `c.isspace()`: the characters CPython's `split()` and `strip()` drop. */
  predicate IsSpace(c: char) {
    var n := c as int;
    n == 0x20 || 0x09 <= n <= 0x0D || 0x1C <= n <= 0x1F || n == 0x85 || n == 0xA0
    || n == 0x1680 || 0x2000 <= n <= 0x200A || n == 0x2028 || n == 0x2029
    || n == 0x202F || n == 0x205F || n == 0x3000
  }

  /** The character classes that are stripped or spanned. */
  datatype CharClass = Whitespace | Slash | NonWhitespace

  predicate In(c: char, cls: CharClass) {
    match cls
    case Whitespace => IsSpace(c)
    case Slash => c == '/'
    case NonWhitespace => !IsSpace(c)
  }

  /** Every character of `s` belongs to `cls`. */
  predicate Only(s: string, cls: CharClass) {
    forall i :: 0 <= i < |s| ==> In(s[i], cls)
  }

  /** Where the run of `cls` characters that starts at `i` ends. */
  function SpanFrom(s: string, i: nat, cls: CharClass): (j: nat)
    requires i <= |s|
    ensures i <= j <= |s|
    ensures forall k :: i <= k < j ==> In(s[k], cls)
    ensures j < |s| ==> !In(s[j], cls)
    decreases |s| - i
  {
    if i == |s| || !In(s[i], cls) then i else SpanFrom(s, i + 1, cls)
  }

  /** Where the run of `cls` characters that ends at `hi` starts, looking no further left than `lo`. */
  function SpanBackTo(s: string, lo: nat, hi: nat, cls: CharClass): (j: nat)
    requires lo <= hi <= |s|
    ensures lo <= j <= hi
    ensures forall k :: j <= k < hi ==> In(s[k], cls)
    ensures lo < j ==> !In(s[j - 1], cls)
    decreases hi
  {
    if hi == lo || !In(s[hi - 1], cls) then hi else SpanBackTo(s, lo, hi - 1, cls)
  }

  /** Where what `Strip` keeps starts: past the leading `cls` characters. */
  function StripStart(s: string, cls: CharClass): nat {
    SpanFrom(s, 0, cls)
  }

  /** Where what `Strip` keeps ends: before the trailing `cls` characters. */
  function StripEnd(s: string, cls: CharClass): nat {
    SpanBackTo(s, StripStart(s, cls), |s|, cls)
  }

  /**
   * `s.strip(chars)` (and `s.strip()` for whitespace): `cls` characters
   * removed from both ends, and nothing else.
   */
  function Strip(s: string, cls: CharClass): (r: string)
    ensures |r| <= |s|
    ensures r == [] || (!In(r[0], cls) && !In(r[|r| - 1], cls))
  {
    s[StripStart(s, cls)..StripEnd(s, cls)]
  }

  /** `r` is `s` with only `cls` characters cut from its front (`a` of them) and from its back. */
  predicate TrimmedAt(s: string, r: string, a: int, cls: CharClass) {
    0 <= a <= |s| - |r| && r == s[a..a + |r|] && Only(s[..a], cls) && Only(s[a + |r|..], cls)
  }

  /** What `Strip` removes is `cls` characters at the two ends, and only those. */
  lemma StripTrims(s: string, cls: CharClass)
    ensures TrimmedAt(s, Strip(s, cls), StripStart(s, cls), cls)
  {
    var a, b := StripStart(s, cls), StripEnd(s, cls);
    assert forall i :: 0 <= i < |s[b..]| ==> s[b..][i] == s[b + i];
  }

  /** `s.rstrip(chars)`: `cls` characters removed from the end only. */
  function RStrip(s: string, cls: CharClass): (r: string)
    ensures |r| <= |s| && r == s[..|r|] && Only(s[|r|..], cls)
    ensures r == [] || !In(r[|r| - 1], cls)
  {
    var j := SpanBackTo(s, 0, |s|, cls);
    assert forall i :: 0 <= i < |s[j..]| ==> s[j..][i] == s[j + i];
    s[..j]
  }

  /** `s.startswith(prefix)`. */
  predicate StartsWith(s: string, prefix: string) {
    |prefix| <= |s| && s[..|prefix|] == prefix
  }

  /** `c.lower()` for an ASCII character; any other character is left as it is. */
  function LowerChar(c: char): char {
    if 'A' <= c <= 'Z' then (c as int + 32) as char else c
  }

  /** `s.lower()`, character by character. */
  function Lower(s: string): (r: string)
    ensures |r| == |s| && forall i :: 0 <= i < |s| ==> r[i] == LowerChar(s[i])
  {
    seq(|s|, i requires 0 <= i < |s| => LowerChar(s[i]))
  }

  /** `s.find(c)` when `c` occurs, `|s|` when it does not. */
  function IndexOf(s: string, c: char): (k: nat)
    ensures k <= |s| && c !in s[..k]
    ensures k < |s| ==> s[k] == c
    ensures k == |s| <==> c !in s
  {
    if s == [] then 0
    else if s[0] == c then 0
    else
      var k := 1 + IndexOf(s[1..], c);
      assert s[..k] == [s[0]] + s[1..][..k - 1];
      k
  }

  /** `sep.join(parts)`. */
  function Join(sep: string, parts: seq<string>): string
  {
    if |parts| == 0 then ""
    else if |parts| == 1 then parts[0]
    else Join(sep, parts[..|parts| - 1]) + sep + parts[|parts| - 1]
  }

  /** The words of `s` from position `i` on: each maximal run of non-whitespace, in order. */
  function SplitFrom(s: string, i: nat): seq<string>
    requires i <= |s|
    decreases |s| - i
  {
    var a := SpanFrom(s, i, Whitespace);
    if a == |s| then []
    else
      var b := SpanFrom(s, a, NonWhitespace);
      [s[a..b]] + SplitFrom(s, b)
  }

  /** `s.split()`. */
  function Split(s: string): seq<string> {
    SplitFrom(s, 0)
  }

  /**
   * `split(maxsplit=n)` from position `i` on: at most `n` words are cut off
   * the front; what follows them, once its leading whitespace is skipped,
   * is one last piece.
   */
  function SplitMaxFrom(s: string, i: nat, n: nat): (r: seq<string>)
    requires i <= |s|
    ensures |r| <= n + 1
    decreases |s| - i
  {
    var a := SpanFrom(s, i, Whitespace);
    if a == |s| then []
    else if n == 0 then [s[a..]]
    else
      var b := SpanFrom(s, a, NonWhitespace);
      [s[a..b]] + SplitMaxFrom(s, b, n - 1)
  }

  /** `s.split(maxsplit=n)`. */
  function SplitMax(s: string, n: nat): (r: seq<string>)
    ensures |r| <= n + 1
  {
    SplitMaxFrom(s, 0, n)
  }
}
