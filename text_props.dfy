/**
 * Properties of the Python string builtins in `PyText` that the client's
 * URL building and the shell's command splitting depend on.
 */
module TextProps {
  import opened PyText

  /** Every word `split()` yields from position `i` on is non-empty and free of whitespace. */
  lemma {:induction false} SplitFromWords(s: string, i: nat)
    requires i <= |s|
    ensures forall w :: w in SplitFrom(s, i) ==> w != [] && Only(w, NonWhitespace)
    decreases |s| - i
  {
    var a := SpanFrom(s, i, Whitespace);
    if a < |s| {
      var b := SpanFrom(s, a, NonWhitespace);
      SplitFromWords(s, b);
      assert forall k :: 0 <= k < |s[a..b]| ==> s[a..b][k] == s[a + k];
    }
  }

  /** Every word of `s.split()` is non-empty and free of whitespace. */
  lemma SplitWords(s: string)
    ensures forall w :: w in Split(s) ==> w != [] && Only(w, NonWhitespace)
  {
    SplitFromWords(s, 0);
  }

  /**
   * `split(maxsplit=n)` from position `i` has as many pieces as `split()`
   * while that is at most `n`, and `n + 1` pieces otherwise.
   */
  lemma {:induction false} SplitMaxFromCount(s: string, i: nat, n: nat)
    requires i <= |s|
    ensures |SplitMaxFrom(s, i, n)| == if |SplitFrom(s, i)| <= n then |SplitFrom(s, i)| else n + 1
    decreases |s| - i
  {
    var a := SpanFrom(s, i, Whitespace);
    if a < |s| && n > 0 {
      SplitMaxFromCount(s, SpanFrom(s, a, NonWhitespace), n - 1);
    }
  }

  /** `s.split(maxsplit=n)` has `min(len(s.split()), n + 1)` pieces. */
  lemma SplitMaxCount(s: string, n: nat)
    ensures |SplitMax(s, n)| == if |Split(s)| <= n then |Split(s)| else n + 1
  {
    SplitMaxFromCount(s, 0, n);
  }

  /** The first `n` pieces of `split(maxsplit=n)` from `i` are the first words of `split()` from `i`. */
  lemma {:induction false} SplitMaxFromHead(s: string, i: nat, n: nat, k: nat)
    requires i <= |s| && k < n && k < |SplitMaxFrom(s, i, n)|
    ensures k < |SplitFrom(s, i)| && SplitMaxFrom(s, i, n)[k] == SplitFrom(s, i)[k]
    decreases |s| - i
  {
    var a := SpanFrom(s, i, Whitespace);
    if k > 0 {
      SplitMaxFromHead(s, SpanFrom(s, a, NonWhitespace), n - 1, k - 1);
    }
  }

  /** The first `n` pieces of `s.split(maxsplit=n)` are the first words of `s.split()`. */
  lemma SplitMaxHead(s: string, n: nat, k: nat)
    requires k < n && k < |SplitMax(s, n)|
    ensures k < |Split(s)| && SplitMax(s, n)[k] == Split(s)[k]
  {
    SplitMaxFromHead(s, 0, n, k);
  }

  /** A run that starts at `i` in a prefix of `s` ends where it ends in `s`, or at the prefix's end. */
  lemma {:induction false} SpanOfPrefix(s: string, m: nat, i: nat, cls: CharClass)
    requires i <= m <= |s|
    ensures SpanFrom(s[..m], i, cls) == if SpanFrom(s, i, cls) <= m then SpanFrom(s, i, cls) else m
    decreases m - i
  {
    if i < m && In(s[i], cls) {
      SpanOfPrefix(s, m, i + 1, cls);
    }
  }

  /** Where the last piece of `split(maxsplit=n)` from `i` starts: past `n` words and the whitespace after them. */
  function RestStartFrom(s: string, i: nat, n: nat): (start: nat)
    requires i <= |s|
    ensures i <= start <= |s|
    decreases |s| - i
  {
    var a := SpanFrom(s, i, Whitespace);
    if a == |s| || n == 0 then a else RestStartFrom(s, SpanFrom(s, a, NonWhitespace), n - 1)
  }

  /**
   * When `split(maxsplit=n)` from `i` reaches `n + 1` pieces, the last one
   * is all of `s` from the start of its `n + 1`-th word on, inner and
   * trailing whitespace included.
   */
  lemma {:induction false} SplitMaxFromRest(s: string, i: nat, n: nat) returns (start: nat)
    requires i <= |s| && |SplitMaxFrom(s, i, n)| == n + 1
    ensures start == RestStartFrom(s, i, n)
    ensures i <= start < |s| && !IsSpace(s[start]) && SplitMaxFrom(s, i, n)[n] == s[start..]
    ensures n < |SplitFrom(s, i)| && StartsWith(s[start..], SplitFrom(s, i)[n])
    decreases |s| - i
  {
    var a := SpanFrom(s, i, Whitespace);
    if n == 0 {
      start := a;
      var b := SpanFrom(s, a, NonWhitespace);
      assert s[a..][..b - a] == s[a..b];
    } else {
      start := SplitMaxFromRest(s, SpanFrom(s, a, NonWhitespace), n - 1);
    }
  }

  /** Before the last of `n + 1` pieces of `split(maxsplit=n)` from `i` lie exactly the first `n` words. */
  lemma {:induction false} WordsBeforeRest(s: string, i: nat, n: nat)
    requires i <= |s| && |SplitMaxFrom(s, i, n)| == n + 1
    ensures n < |SplitFrom(s, i)| && SplitFrom(s[..RestStartFrom(s, i, n)], i) == SplitFrom(s, i)[..n]
    decreases |s| - i
  {
    var start := SplitMaxFromRest(s, i, n);
    var a := SpanFrom(s, i, Whitespace);
    if n == 0 {
      SpanOfPrefix(s, start, i, Whitespace);
    } else {
      var b := SpanFrom(s, a, NonWhitespace);
      var rest := SplitMaxFromRest(s, b, n - 1);
      assert rest == start;
      WordsBeforeRest(s, b, n - 1);
      FirstWordOfPrefix(s, start, i);
      ConsPrefix(s[a..b], SplitFrom(s, b), n);
    }
  }

  /** Taking `n` words after a first one is taking `n - 1` of the rest. */
  lemma ConsPrefix(w: string, rest: seq<string>, n: nat)
    requires 0 < n <= |rest| + 1
    ensures ([w] + rest)[..n] == [w] + rest[..n - 1]
  {
  }

  /** A prefix of `s` that reaches past the first word from `i` has that word first, then its own words. */
  lemma FirstWordOfPrefix(s: string, m: nat, i: nat)
    requires i <= m <= |s| && SpanFrom(s, i, Whitespace) < |s|
    requires SpanFrom(s, SpanFrom(s, i, Whitespace), NonWhitespace) <= m
    ensures var a := SpanFrom(s, i, Whitespace); var b := SpanFrom(s, a, NonWhitespace);
      SplitFrom(s[..m], i) == [s[a..b]] + SplitFrom(s[..m], b)
  {
    var a := SpanFrom(s, i, Whitespace);
    var b := SpanFrom(s, a, NonWhitespace);
    SpanOfPrefix(s, m, i, Whitespace);
    SpanOfPrefix(s, m, a, NonWhitespace);
    assert s[..m][a..b] == s[a..b];
  }

  /**
   * The last of `n + 1` pieces of `s.split(maxsplit=n)` is the suffix of
   * `s` that starts with its `n + 1`-th word, and the first `n` words are
   * what comes before it.
   */
  lemma SplitMaxRest(s: string, n: nat) returns (start: nat)
    requires |SplitMax(s, n)| == n + 1
    ensures start < |s| && !IsSpace(s[start]) && SplitMax(s, n)[n] == s[start..]
    ensures n < |Split(s)| && StartsWith(s[start..], Split(s)[n])
    ensures Split(s[..start]) == Split(s)[..n]
  {
    start := SplitMaxFromRest(s, 0, n);
    WordsBeforeRest(s, 0, n);
  }

  /**
   * A line that starts with the non-blank word `w`, followed by whitespace
   * or by nothing, has `w` as the first word of its `split()`.
   */
  lemma FirstWord(s: string, w: string)
    requires w != [] && Only(w, NonWhitespace) && StartsWith(s, w)
    requires |s| == |w| || IsSpace(s[|w|])
    ensures Split(s) != [] && Split(s)[0] == w
  {
    assert s[0] == w[0];
    assert SpanFrom(s, 0, Whitespace) == 0;
    assert forall k :: 0 <= k < |w| ==> s[k] == w[k];
    assert SpanFrom(s, 0, NonWhitespace) == |w|;
  }

  /** A line that strips to something non-blank has a first word. */
  lemma StrippedHasWord(text: string)
    requires Strip(text, Whitespace) != []
    ensures Split(Strip(text, Whitespace)) != []
  {
    var raw := Strip(text, Whitespace);
    assert SpanFrom(raw, 0, Whitespace) == 0;
  }

  /** Joining two non-empty lists is joining their joins. */
  lemma {:induction false} JoinAppend(sep: string, a: seq<string>, b: seq<string>)
    requires a != [] && b != []
    ensures Join(sep, a + b) == Join(sep, a) + sep + Join(sep, b)
    decreases |b|
  {
    var ab := a + b;
    if |b| == 1 {
      assert ab[..|ab| - 1] == a;
    } else {
      var init := b[..|b| - 1];
      assert ab[..|ab| - 1] == a + init;
      JoinAppend(sep, a, init);
    }
  }
}
