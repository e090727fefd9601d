/** String operations the app takes from Foundation: trimming whitespace,
    substring search, counting and literal find-and-replace. Strings are
    sequences of Unicode scalar values; comparison is code point by code point. */
module Text {

  /** Membership in Foundation's `whitespacesAndNewlines` set: the Unicode
      `White_Space` characters (the `Zs` separators, tab through carriage
      return, next line, and the line and paragraph separators). */
  predicate IsWhitespace(c: char) {
    || c == ' '
    || ('\t' <= c <= '\r')
    || c == '\U{85}'
    || c == '\U{A0}'
    || c == '\U{1680}'
    || ('\U{2000}' <= c <= '\U{200A}')
    || c == '\U{2028}'
    || c == '\U{2029}'
    || c == '\U{202F}'
    || c == '\U{205F}'
    || c == '\U{3000}'
  }

  predicate AllWhitespace(s: string) {
    forall i :: 0 <= i < |s| ==> IsWhitespace(s[i])
  }

  /** Drops the leading whitespace: what is left is a suffix of `s` that does
      not start with whitespace, and everything dropped is whitespace. */
  function TrimStart(s: string): (r: string)
    ensures |r| <= |s| && r == s[|s| - |r|..]
    ensures AllWhitespace(s[..|s| - |r|])
    ensures r == [] || !IsWhitespace(r[0])
    decreases |s|
  {
    if |s| > 0 && IsWhitespace(s[0]) then
      var t := s[1..];
      var r := TrimStart(t);
      assert s[..|s| - |r|] == [s[0]] + t[..|t| - |r|];
      r
    else s
  }

  /** Drops the trailing whitespace: what is left is a prefix of `s` that does
      not end with whitespace, and everything dropped is whitespace. */
  function TrimEnd(s: string): (r: string)
    ensures |r| <= |s| && r == s[..|r|]
    ensures AllWhitespace(s[|r|..])
    ensures r == [] || !IsWhitespace(r[|r| - 1])
    decreases |s|
  {
    if |s| > 0 && IsWhitespace(s[|s| - 1]) then
      var t := s[..|s| - 1];
      var r := TrimEnd(t);
      assert s[|r|..] == t[|r|..] + [s[|s| - 1]];
      r
    else s
  }

  /** `s.trimmingCharacters(in: .whitespacesAndNewlines)`: `s` is the result
      with whitespace before and after it. The result neither starts nor
      ends with whitespace, and it is empty exactly when `s` is blank. */
  function Trim(s: string): (r: string)
    ensures var i := |s| - |TrimStart(s)|;
      && i + |r| <= |s| && s == s[..i] + r + s[i + |r|..]
      && AllWhitespace(s[..i]) && AllWhitespace(s[i + |r|..])
    ensures r == [] || (!IsWhitespace(r[0]) && !IsWhitespace(r[|r| - 1]))
    ensures r == [] <==> AllWhitespace(s)
  {
    var t := TrimStart(s);
    var r := TrimEnd(t);
    TrimBetween(s, t, r);
    r
  }

  /** Dropping a leading run `s[..|s| - |t|]` and then a trailing run
      `t[|r|..]` of whitespace leaves `r` between them. */
  lemma TrimBetween(s: string, t: string, r: string)
    requires |t| <= |s| && t == s[|s| - |t|..] && AllWhitespace(s[..|s| - |t|]) && (t == [] || !IsWhitespace(t[0]))
    requires |r| <= |t| && r == t[..|r|] && AllWhitespace(t[|r|..]) && (r == [] || !IsWhitespace(r[|r| - 1]))
    ensures var i := |s| - |t|;
      && i + |r| <= |s| && s == s[..i] + r + s[i + |r|..]
      && AllWhitespace(s[..i]) && AllWhitespace(s[i + |r|..])
    ensures r == [] || (!IsWhitespace(r[0]) && !IsWhitespace(r[|r| - 1]))
    ensures r == [] <==> AllWhitespace(s)
  {
    var i := |s| - |t|;
    assert t == r + t[|r|..];
    assert s[i + |r|..] == t[|r|..];
    assert s == s[..i] + r + t[|r|..];
    if r != [] {
      assert r[0] == t[0];
      assert !AllWhitespace(s) by { assert s[i] == t[0]; }
    } else {
      assert t[|r|..] == t;
      assert t == [];
      assert s[..i] == s;
    }
  }

  lemma {:induction false} TrimStartAfterWhitespace(w: string, x: string)
    requires AllWhitespace(w)
    ensures TrimStart(w + x) == TrimStart(x)
    decreases |w|
  {
    if w != [] {
      assert (w + x)[1..] == w[1..] + x;
      TrimStartAfterWhitespace(w[1..], x);
    } else {
      assert w + x == x;
    }
  }

  lemma {:induction false} TrimEndBeforeWhitespace(x: string, w: string)
    requires AllWhitespace(w)
    ensures TrimEnd(x + w) == TrimEnd(x)
    decreases |w|
  {
    if w != [] {
      assert (x + w)[..|x + w| - 1] == x + w[..|w| - 1];
      TrimEndBeforeWhitespace(x, w[..|w| - 1]);
    } else {
      assert x + w == x;
    }
  }

  lemma {:induction false} TrimStartKeepsTail(x: string, w: string)
    requires !AllWhitespace(x)
    ensures TrimStart(x + w) == TrimStart(x) + w
    decreases |x|
  {
    if IsWhitespace(x[0]) {
      assert (x + w)[1..] == x[1..] + w;
      assert !AllWhitespace(x[1..]) by {
        var i :| 0 <= i < |x| && !IsWhitespace(x[i]);
        assert x[1..][i - 1] == x[i];
      }
      TrimStartKeepsTail(x[1..], w);
    }
  }

  lemma TrimStartOfWhitespace(x: string)
    requires AllWhitespace(x)
    ensures TrimStart(x) == []
  {
  }

  /** Whitespace around a key does not change the trimmed key: a key pasted
      with a stray space or line break yields the same credential. */
  lemma TrimIgnoresSurroundingWhitespace(w: string, s: string, w': string)
    requires AllWhitespace(w) && AllWhitespace(w')
    ensures Trim(w + s + w') == Trim(s)
  {
    assert w + s + w' == w + (s + w');
    TrimStartAfterWhitespace(w, s + w');
    if AllWhitespace(s) {
      assert AllWhitespace(s + w') by {
        forall i | 0 <= i < |s + w'| ensures IsWhitespace((s + w')[i]) {
          if i < |s| { assert (s + w')[i] == s[i]; } else { assert (s + w')[i] == w'[i - |s|]; }
        }
      }
      TrimStartOfWhitespace(s + w');
      TrimStartOfWhitespace(s);
    } else {
      TrimStartKeepsTail(s, w');
      TrimEndBeforeWhitespace(TrimStart(s), w');
    }
  }

  /** Trimming twice is trimming once. */
  lemma TrimIdempotent(s: string)
    ensures Trim(Trim(s)) == Trim(s)
  {
    var t := Trim(s);
    var u := TrimStart(s);
    if t != [] {
      assert t[0] == u[0];
      assert TrimStart(t) == t;
      assert TrimEnd(t) == t;
    }
  }

  /** `s.hasSuffix(suffix)`. */
  predicate EndsWith(s: string, suffix: string) {
    |suffix| <= |s| && s[|s| - |suffix|..] == suffix
  }

  lemma EndsWithConcat(a: string, b: string)
    ensures EndsWith(a + b, b)
  {
    assert (a + b)[|a + b| - |b|..] == b;
  }

  // ---------------------------------------------------------------------
  // Substring search

  /** `target` occurs in `s` starting at index `i`. */
  predicate OccursAt(s: string, target: string, i: int) {
    0 <= i && i + |target| <= |s| && s[i..i + |target|] == target
  }

  /** `s.contains(target)`. */
  predicate Contains(s: string, target: string) {
    exists i :: 0 <= i <= |s| - |target| && OccursAt(s, target, i)
  }

  /** An occurrence in a non-empty `s` is at its start or inside its tail. */
  lemma ContainsStep(s: string, target: string)
    requires |s| > 0
    ensures Contains(s, target) <==> OccursAt(s, target, 0) || Contains(s[1..], target)
  {
    if Contains(s[1..], target) {
      var i :| 0 <= i <= |s[1..]| - |target| && OccursAt(s[1..], target, i);
      assert s[1..][i..i + |target|] == s[i + 1..i + 1 + |target|];
      assert OccursAt(s, target, i + 1);
    }
    if Contains(s, target) && !OccursAt(s, target, 0) {
      var i :| 0 <= i <= |s| - |target| && OccursAt(s, target, i);
      assert i > 0;
      assert s[1..][i - 1..i - 1 + |target|] == s[i..i + |target|];
      assert OccursAt(s[1..], target, i - 1);
    }
  }

  /** An occurrence in `y` is an occurrence in any `x + y`. */
  lemma ContainsInSuffix(x: string, y: string, target: string)
    requires Contains(y, target)
    ensures Contains(x + y, target)
  {
    var i :| 0 <= i <= |y| - |target| && OccursAt(y, target, i);
    assert (x + y)[|x| + i..|x| + i + |target|] == y[i..i + |target|];
    assert OccursAt(x + y, target, |x| + i);
  }

  /** A string lacking one of `target`'s characters does not contain it. */
  lemma MissingCharNotContained(s: string, target: string, j: nat)
    requires j < |target| && target[j] !in s
    ensures !Contains(s, target)
  {
    forall i | 0 <= i <= |s| - |target|
      ensures !OccursAt(s, target, i)
    {
      assert s[i..i + |target|][j] == s[i + j];
    }
  }

  /** The number of (possibly overlapping) positions at which a non-empty
      `target` occurs in `s`. */
  function CountOccurrences(s: string, target: string): (n: nat)
    requires target != []
    ensures n == 0 <==> !Contains(s, target)
    decreases |s|
  {
    if |s| < |target| then
      assert !Contains(s, target);
      0
    else
      ContainsStep(s, target);
      var rest := CountOccurrences(s[1..], target);
      (if s[..|target|] == target then 1 else 0) + rest
  }

  /** When the first character of `target` does not occur in `x`, no
      occurrence of `target` can start inside `x`. */
  lemma {:induction false} CountAfterFreePrefix(x: string, y: string, target: string)
    requires target != [] && target[0] !in x
    ensures CountOccurrences(x + y, target) == CountOccurrences(y, target)
    decreases |x|
  {
    if x == [] {
      assert x + y == y;
    } else {
      var s := x + y;
      assert s[1..] == x[1..] + y;
      CountAfterFreePrefix(x[1..], y, target);
      if |s| >= |target| {
        assert s[..|target|][0] == x[0];
      }
    }
  }

  /** A token whose first character occurs nowhere else in `p + token + q`
      occurs there exactly once. */
  lemma CountSingleToken(p: string, token: string, q: string)
    requires token != [] && token[0] !in p && token[0] !in token[1..] && token[0] !in q
    ensures CountOccurrences(p + token + q, token) == 1
  {
    assert p + token + q == p + (token + q);
    CountAfterFreePrefix(p, token + q, token);
    var s := token + q;
    assert s[..|token|] == token;
    assert s[1..] == token[1..] + q;
    CountAfterFreePrefix(token[1..] + q, [], token);
    assert token[1..] + q + [] == token[1..] + q;
    assert CountOccurrences([], token) == 0;
  }

  // ---------------------------------------------------------------------
  // Literal find-and-replace

  /** `s.replacingOccurrences(of: target, with: replacement)`: scans left to
      right and replaces every non-overlapping occurrence of `target`. An
      empty `target` leaves `s` as it is. Replacing a text by itself changes
      nothing, and a replacement no longer than its target never lengthens
      the string. */
  function ReplaceAll(s: string, target: string, replacement: string): (r: string)
    ensures replacement == target ==> r == s
    ensures |replacement| <= |target| ==> |r| <= |s|
    decreases |s|
  {
    if |target| == 0 || |s| < |target| then s
    else if s[..|target|] == target then
      assert s == target + s[|target|..];
      replacement + ReplaceAll(s[|target|..], target, replacement)
    else
      assert s == [s[0]] + s[1..];
      [s[0]] + ReplaceAll(s[1..], target, replacement)
  }

  /** A string that does not contain `target` is left unchanged. */
  lemma {:induction false} ReplaceAllAbsent(s: string, target: string, replacement: string)
    requires !Contains(s, target)
    ensures ReplaceAll(s, target, replacement) == s
    decreases |s|
  {
    if |target| != 0 && |s| >= |target| {
      assert !OccursAt(s, target, 0);
      ContainsStep(s, target);
      ReplaceAllAbsent(s[1..], target, replacement);
      assert [s[0]] + s[1..] == s;
    }
  }

  /** A string in which `target` cannot start anywhere (its first character
      is absent) is left unchanged. */
  lemma {:induction false} ReplaceAllWithoutFirstChar(x: string, y: string, target: string, replacement: string)
    requires target != [] && target[0] !in x
    ensures ReplaceAll(x + y, target, replacement) == x + ReplaceAll(y, target, replacement)
    decreases |x|
  {
    if x != [] {
      var s := x + y;
      assert s[1..] == x[1..] + y;
      if |s| >= |target| {
        assert s[..|target|][0] == x[0];
      }
      ReplaceAllWithoutFirstChar(x[1..], y, target, replacement);
      if |s| < |target| {
        assert ReplaceAll(y, target, replacement) == y;
      }
    } else {
      assert x + y == y;
    }
  }

  /** Replacing a token that occurs once, with its first character absent
      from the surrounding text, splices the replacement in its place. */
  lemma ReplaceSingleToken(p: string, token: string, q: string, replacement: string)
    requires token != [] && token[0] !in p && token[0] !in q
    ensures ReplaceAll(p + token + q, token, replacement) == p + replacement + q
  {
    assert p + token + q == p + (token + q);
    ReplaceAllWithoutFirstChar(p, token + q, token, replacement);
    var s := token + q;
    assert s[..|token|] == token;
    assert s[|token|..] == q;
    ReplaceAllWithoutFirstChar(q, [], token, replacement);
    assert q + [] == q;
    assert ReplaceAll([], token, replacement) == [];
  }

  /** When the last character of `target` occurs nowhere earlier in `target`
      and nowhere in `x`, no occurrence can start inside `x` even if it would
      run into what follows: the text before an occurrence is kept. */
  lemma {:induction false} ReplaceAllKeepsFreePrefix(x: string, target: string, q: string, replacement: string)
    requires target != []
    requires target[|target| - 1] !in x && target[|target| - 1] !in target[..|target| - 1]
    ensures ReplaceAll(x + target + q, target, replacement) == x + replacement + ReplaceAll(q, target, replacement)
    decreases |x|
  {
    var s := x + target + q;
    var n := |target|;
    var c := target[n - 1];
    if x == [] {
      assert s == target + q;
      assert s[..n] == target;
      assert s[n..] == q;
    } else {
      assert s[..n][n - 1] == s[n - 1];
      assert n - 1 < |x| ==> s[n - 1] == x[n - 1];
      assert n - 1 >= |x| ==> s[n - 1] == target[n - 1 - |x|] == target[..n - 1][n - 1 - |x|];
      assert s[..n] != target;
      assert s[1..] == x[1..] + target + q;
      ReplaceAllKeepsFreePrefix(x[1..], target, q, replacement);
    }
  }
}
