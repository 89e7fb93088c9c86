/**
 * Text operations shared by the model: whitespace trimming, ASCII case
 * mapping, prefix and substring tests, and splitting and joining on '\n'.
 *
 * Whitespace and case mapping are ASCII approximations of the Unicode
 * operations the application calls (Swift's `.whitespacesAndNewlines`,
 * `lowercased()`, Python's `str.strip`, `str.lower`, `str.capitalize`).
 */
module Text {

  // ---------------------------------------------------------------------
  // Whitespace and trimming
  // ---------------------------------------------------------------------

  /** Space, tab, line feed, carriage return, vertical tab and form feed. */
  predicate IsWhitespace(c: char) {
    c == ' ' || c == '\t' || c == '\n' || c == '\r' || c == '\U{000B}' || c == '\U{000C}'
  }

  predicate AllWhitespace(s: string) {
    forall i | 0 <= i < |s| :: IsWhitespace(s[i])
  }

  /** Neither the first nor the last character is whitespace. */
  predicate NoOuterWhitespace(s: string) {
    s == [] || (!IsWhitespace(s[0]) && !IsWhitespace(s[|s| - 1]))
  }

  /** Drops the leading whitespace. */
  function TrimStart(s: string): (r: string)
    ensures |r| <= |s| && r == s[|s| - |r|..]
    ensures AllWhitespace(s[..|s| - |r|])
    ensures r == [] || !IsWhitespace(r[0])
  {
    if s != [] && IsWhitespace(s[0]) then TrimStart(s[1..]) else s
  }

  /** Drops the trailing whitespace. */
  function TrimEnd(s: string): (r: string)
    ensures |r| <= |s| && r == s[..|r|]
    ensures AllWhitespace(s[|r|..])
    ensures r == [] || !IsWhitespace(r[|r| - 1])
  {
    if s != [] && IsWhitespace(s[|s| - 1]) then TrimEnd(s[..|s| - 1]) else s
  }

  /** Drops whitespace at both ends. */
  function Trim(s: string): (r: string)
    ensures NoOuterWhitespace(r)
    ensures |r| <= |s|
  {
    TrimEnd(TrimStart(s))
  }

  /** Trimming leaves nothing exactly when the text is all whitespace. */
  lemma TrimEmptyIffBlank(s: string)
    ensures Trim(s) == [] <==> AllWhitespace(s)
  {
    var t := TrimStart(s);
    var i := |s| - |t|;
    if TrimEnd(t) == [] {
      forall k | 0 <= k < |s| ensures IsWhitespace(s[k]) {
        assert s[..i][k] == s[k];
      }
    }
  }

  /**
   * The text is its trimming with whitespace on either side: what `Trim`
   * cuts off is whitespace and nothing else.
   */
  lemma TrimDecomposition(s: string) returns (pre: string, post: string)
    ensures s == pre + Trim(s) + post
    ensures AllWhitespace(pre) && AllWhitespace(post)
  {
    var t: string;
    pre, t := SplitLeading(s);
    post := SplitTrailing(t);
    var r := TrimEnd(t);
    assert Trim(s) == r;
    assert s == pre + (r + post);
    ConcatAssoc(pre, r, post);
  }

  /** Sequence concatenation regrouped; called where the solver should not search for it. */
  lemma ConcatAssoc<T>(a: seq<T>, b: seq<T>, c: seq<T>)
    ensures a + (b + c) == (a + b) + c
  {
  }

  lemma SplitLeading(s: string) returns (pre: string, t: string)
    ensures t == TrimStart(s) && s == pre + t && AllWhitespace(pre)
  {
    t := TrimStart(s);
    pre := s[..|s| - |t|];
  }

  lemma SplitTrailing(t: string) returns (post: string)
    ensures t == TrimEnd(t) + post && AllWhitespace(post)
  {
    post := t[|TrimEnd(t)|..];
  }

  /** A text without outer whitespace is its own trimming. */
  lemma TrimOfTrimmed(s: string)
    requires NoOuterWhitespace(s)
    ensures Trim(s) == s
  {
  }

  /** Trimming is idempotent. */
  lemma TrimIdempotent(s: string)
    ensures Trim(Trim(s)) == Trim(s)
  {
    TrimOfTrimmed(Trim(s));
  }

  lemma {:induction false} TrimStartPadded(pre: string, s: string)
    requires AllWhitespace(pre) && (s == [] || !IsWhitespace(s[0]))
    ensures TrimStart(pre + s) == s
  {
    if pre != [] {
      assert (pre + s)[1..] == pre[1..] + s;
      TrimStartPadded(pre[1..], s);
    }
  }

  lemma {:induction false} TrimEndPadded(s: string, post: string)
    requires AllWhitespace(post) && (s == [] || !IsWhitespace(s[|s| - 1]))
    ensures TrimEnd(s + post) == s
  {
    if post != [] {
      var w := s + post;
      assert w[..|w| - 1] == s + post[..|post| - 1];
      TrimEndPadded(s, post[..|post| - 1]);
    } else {
      assert s + post == s;
    }
  }

  /** Whitespace added around a trimmed text is removed again. */
  lemma TrimPadded(pre: string, s: string, post: string)
    requires AllWhitespace(pre) && AllWhitespace(post) && NoOuterWhitespace(s)
    ensures Trim(pre + s + post) == s
  {
    if s == [] {
      var w := pre + s + post;
      forall k | 0 <= k < |w| ensures IsWhitespace(w[k]) {
        if k < |pre| { assert w[k] == pre[k]; } else { assert w[k] == post[k - |pre|]; }
      }
    } else {
      assert pre + s + post == pre + (s + post);
      TrimStartPadded(pre, s + post);
      TrimEndPadded(s, post);
    }
  }

  lemma AllWhitespaceConcat(a: string, b: string)
    requires AllWhitespace(a) && AllWhitespace(b)
    ensures AllWhitespace(a + b)
  {
    var w := a + b;
    forall k | 0 <= k < |w| ensures IsWhitespace(w[k]) {
      if k < |a| { assert w[k] == a[k]; } else { assert w[k] == b[k - |a|]; }
    }
  }

  lemma AppendThree(a: string, b: string, c: string, d: string, e: string)
    ensures a + (b + c + d) + e == (a + b) + c + (d + e)
  {
  }

  /** Whitespace added around any text does not change its trimming. */
  lemma TrimIgnoresPadding(pre: string, s: string, post: string)
    requires AllWhitespace(pre) && AllWhitespace(post)
    ensures Trim(pre + s + post) == Trim(s)
  {
    var p, q := TrimDecomposition(s);
    AppendThree(pre, p, Trim(s), q, post);
    AllWhitespaceConcat(pre, p);
    AllWhitespaceConcat(q, post);
    TrimPadded(pre + p, Trim(s), q + post);
  }

  // ---------------------------------------------------------------------
  // Case mapping
  // ---------------------------------------------------------------------

  function LowerChar(c: char): char {
    if 'A' <= c <= 'Z' then (c as int + 32) as char else c
  }

  function UpperChar(c: char): char {
    if 'a' <= c <= 'z' then (c as int - 32) as char else c
  }

  /** Lower-cases every ASCII letter and keeps every other character. */
  function Lower(s: string): (r: string)
    ensures |r| == |s|
    ensures forall i | 0 <= i < |s| :: r[i] == LowerChar(s[i])
  {
    seq(|s|, i requires 0 <= i < |s| => LowerChar(s[i]))
  }

  /** Python's `str.capitalize`: first character upper case, the rest lower case. */
  function Capitalize(s: string): (r: string)
    ensures |r| == |s|
    ensures s != [] ==> r[0] == UpperChar(s[0]) && r[1..] == Lower(s[1..])
  {
    if s == [] then [] else [UpperChar(s[0])] + Lower(s[1..])
  }

  /** Capitalizing a name does not change its lower-case form. */
  lemma LowerOfCapitalize(s: string)
    ensures Lower(Capitalize(s)) == Lower(s)
  {
    var c := Capitalize(s);
    forall i | 0 <= i < |s| ensures Lower(c)[i] == Lower(s)[i] {
      if i > 0 { assert c[i] == c[1..][i - 1]; }
    }
  }

  // ---------------------------------------------------------------------
  // Prefixes and substrings
  // ---------------------------------------------------------------------

  /** Swift's `hasPrefix` and Python's `startswith`. */
  predicate StartsWith(s: string, prefix: string) {
    |prefix| <= |s| && s[..|prefix|] == prefix
  }

  /** Python's `needle in s`: `needle` occurs in `s` at some position. */
  predicate Contains(s: string, needle: string)
    decreases |s|
  {
    StartsWith(s, needle) || (s != [] && Contains(s[1..], needle))
  }

  /** A text made only of whitespace contains no needle that starts with a non-whitespace character. */
  lemma {:induction false} BlankContainsNoToken(s: string, needle: string)
    requires AllWhitespace(s)
    requires needle != [] && !IsWhitespace(needle[0])
    ensures !Contains(s, needle)
    decreases |s|
  {
    if s != [] {
      BlankContainsNoToken(s[1..], needle);
    }
  }

  // ---------------------------------------------------------------------
  // Lines: Python's `str.split('\n')` and `'\n'.join(...)`
  // ---------------------------------------------------------------------

  predicate NoNewline(s: string) {
    '\n' !in s
  }

  /** The pieces of `s` between line feeds; never empty (`"".split('\n') == [""]`). */
  function Split(s: string): (lines: seq<string>)
    ensures |lines| >= 1
    ensures forall k | 0 <= k < |lines| :: NoNewline(lines[k])
  {
    if s == [] then [""]
    else
      var rest := Split(s[1..]);
      if s[0] == '\n' then [""] + rest else [[s[0]] + rest[0]] + rest[1..]
  }

  /** The lines glued together with a line feed between each two. */
  function Join(lines: seq<string>): string {
    if |lines| == 0 then ""
    else if |lines| == 1 then lines[0]
    else lines[0] + "\n" + Join(lines[1..])
  }

  /** Joining the pieces of a split gives back the text. */
  lemma {:induction false} JoinSplit(s: string)
    ensures Join(Split(s)) == s
  {
    if s != [] {
      var rest := Split(s[1..]);
      JoinSplit(s[1..]);
      if s[0] == '\n' {
        assert Split(s) == [""] + rest;
        assert ([""] + rest)[1..] == rest;
        assert s == [s[0]] + s[1..];
      } else {
        var lines := Split(s);
        assert lines == [[s[0]] + rest[0]] + rest[1..];
        if |rest| == 1 {
          assert s == [s[0]] + s[1..];
        } else {
          assert lines[1..] == rest[1..];
          assert Join(rest) == rest[0] + "\n" + Join(rest[1..]);
          assert s == [s[0]] + s[1..];
        }
      }
    }
  }

  /** A text without line feeds is a single piece. */
  lemma {:induction false} SplitSingle(a: string)
    requires NoNewline(a)
    ensures Split(a) == [a]
  {
    if a != [] {
      assert a[0] in a;
      assert NoNewline(a[1..]) by {
        forall c | c in a[1..] ensures c in a { }
      }
      SplitSingle(a[1..]);
      assert a == [a[0]] + a[1..];
    }
  }

  /** Splitting `a + "\n" + rest` yields `a` and then the pieces of `rest`. */
  lemma {:induction false} SplitAtNewline(a: string, rest: string)
    requires NoNewline(a)
    ensures Split(a + "\n" + rest) == [a] + Split(rest)
  {
    var s := a + "\n" + rest;
    if a == [] {
      assert s == "\n" + rest;
      assert s[1..] == rest;
    } else {
      assert a[0] in a;
      assert NoNewline(a[1..]) by {
        forall c | c in a[1..] ensures c in a { }
      }
      SplitAtNewline(a[1..], rest);
      assert s[1..] == a[1..] + "\n" + rest;
      assert s[0] == a[0];
      assert a == [a[0]] + a[1..];
    }
  }

  /** Splitting a join of newline-free lines gives back the lines. */
  lemma {:induction false} SplitJoin(lines: seq<string>)
    requires |lines| >= 1
    requires forall k | 0 <= k < |lines| :: NoNewline(lines[k])
    ensures Split(Join(lines)) == lines
  {
    if |lines| == 1 {
      SplitSingle(lines[0]);
    } else {
      SplitJoin(lines[1..]);
      SplitAtNewline(lines[0], Join(lines[1..]));
      assert lines == [lines[0]] + lines[1..];
    }
  }
}
