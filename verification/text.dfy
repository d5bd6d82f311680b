/** The parts of Python's `str` methods that the device-list parser relies on:
    `splitlines()`, `split()` with no argument, and `strip()` with no argument. */
module Text {
  import opened Sequences

  /** The characters `str.isspace()` accepts, which `split()` and `strip()`
      treat as separators. */
  predicate IsSpace(c: char) {
    c == ' ' || ('\t' <= c <= '\r') || ('\U{1c}' <= c <= '\U{1f}')
    || c == '\U{85}' || c == '\U{a0}' || c == '\U{1680}'
    || ('\U{2000}' <= c <= '\U{200a}') || c == '\U{2028}' || c == '\U{2029}'
    || c == '\U{202f}' || c == '\U{205f}' || c == '\U{3000}'
  }

  /** The characters `splitlines()` ends a line at (`\r\n` is a single boundary). */
  predicate IsLineBreak(c: char) {
    ('\n' <= c <= '\r') || ('\U{1c}' <= c <= '\U{1e}')
    || c == '\U{85}' || c == '\U{2028}' || c == '\U{2029}'
  }

  predicate NoLineBreak(s: string) {
    forall k :: 0 <= k < |s| ==> !IsLineBreak(s[k])
  }

  predicate AllSpace(s: string) {
    forall k :: 0 <= k < |s| ==> IsSpace(s[k])
  }

  /** A field of `split()`'s result: non-empty and free of whitespace. */
  predicate IsWord(w: string) {
    |w| > 0 && forall k :: 0 <= k < |w| ==> !IsSpace(w[k])
  }

  // ---------------------------------------------------------------------------
  // splitlines()
  // ---------------------------------------------------------------------------

  /** Index of the first line boundary in `s`, or `|s|` when there is none. */
  function LineLength(s: string): (n: nat)
    ensures n <= |s|
    ensures forall k :: 0 <= k < n ==> !IsLineBreak(s[k])
    ensures n < |s| ==> IsLineBreak(s[n])
  {
    if |s| == 0 || IsLineBreak(s[0]) then 0 else 1 + LineLength(s[1..])
  }

  /** Number of characters taken by the boundary at `s[i]`. */
  function BreakWidth(s: string, i: nat): (w: nat)
    requires i < |s| && IsLineBreak(s[i])
    ensures 1 <= w <= |s| - i
  {
    if s[i] == '\r' && i + 1 < |s| && s[i + 1] == '\n' then 2 else 1
  }

  /** `s.splitlines()`: the lines of `s` without their boundaries; a boundary at
      the very end does not open an extra empty line, and `""` has no lines. */
  function SplitLines(s: string): (lines: seq<string>)
    ensures forall i :: 0 <= i < |lines| ==> NoLineBreak(lines[i])
    ensures |lines| <= |s|
    ensures |lines| == 0 <==> |s| == 0
    decreases |s|
  {
    if |s| == 0 then []
    else
      var n := LineLength(s);
      if n == |s| then [s]
      else [s[..n]] + SplitLines(s[n + BreakWidth(s, n)..])
  }

  /** Every line followed by the terminator `t`. */
  function JoinLines(lines: seq<string>, t: string): string {
    if |lines| == 0 then "" else lines[0] + t + JoinLines(lines[1..], t)
  }

  /** The only way `LineLength` can answer. */
  lemma LineLengthIs(s: string, n: nat)
    requires n <= |s|
    requires forall k :: 0 <= k < n ==> !IsLineBreak(s[k])
    requires n < |s| ==> IsLineBreak(s[n])
    ensures LineLength(s) == n
  {
  }

  /** A line terminated by `"\n"` or `"\r\n"` is the first line of the text. */
  lemma SplitLinesCons(l: string, t: string, tail: string)
    requires t == "\n" || t == "\r\n"
    requires NoLineBreak(l)
    ensures SplitLines(l + t + tail) == [l] + SplitLines(tail)
  {
    var s := l + t + tail;
    assert s[|l|] == t[0];
    forall k | 0 <= k < |l|
      ensures !IsLineBreak(s[k])
    {
      assert s[k] == l[k];
    }
    LineLengthIs(s, |l|);
    assert |l| + BreakWidth(s, |l|) == |l| + |t|;
    assert s[..|l|] == l;
    assert s[|l| + |t|..] == tail;
  }

  /** Splitting text whose first lines were each terminated by `"\n"` or
      `"\r\n"` gives those lines back, followed by the lines of the remainder. */
  lemma {:induction false} SplitLinesJoin(lines: seq<string>, t: string, rest: string)
    requires t == "\n" || t == "\r\n"
    requires forall i :: 0 <= i < |lines| ==> NoLineBreak(lines[i])
    ensures SplitLines(JoinLines(lines, t) + rest) == lines + SplitLines(rest)
    decreases |lines|
  {
    if |lines| == 0 {
      assert JoinLines(lines, t) + rest == rest;
    } else {
      var l, more := lines[0], lines[1..];
      var tail := JoinLines(more, t) + rest;
      var whole := JoinLines(lines, t) + rest;
      assert whole == l + t + tail;
      SplitLinesCons(l, t, tail);
      SplitLinesJoin(more, t, rest);
      var after := SplitLines(rest);
      assert SplitLines(whole) == [l] + (more + after);
      assert lines == [l] + more;
      AppendAssociative([l], more, after);
    }
  }

  /** The round trip for whole texts: each line terminated, nothing after. */
  lemma SplitLinesOfJoin(lines: seq<string>, t: string)
    requires t == "\n" || t == "\r\n"
    requires forall i :: 0 <= i < |lines| ==> NoLineBreak(lines[i])
    ensures SplitLines(JoinLines(lines, t)) == lines
  {
    SplitLinesJoin(lines, t, "");
    assert JoinLines(lines, t) + "" == JoinLines(lines, t);
  }

  // ---------------------------------------------------------------------------
  // split()
  // ---------------------------------------------------------------------------

  /** Index of the first whitespace character in `s`, or `|s|`. */
  function WordLength(s: string): (n: nat)
    ensures n <= |s|
    ensures forall k :: 0 <= k < n ==> !IsSpace(s[k])
    ensures n < |s| ==> IsSpace(s[n])
  {
    if |s| == 0 || IsSpace(s[0]) then 0 else 1 + WordLength(s[1..])
  }

  /** The only way `WordLength` can answer. */
  lemma WordLengthIs(s: string, n: nat)
    requires n <= |s|
    requires forall k :: 0 <= k < n ==> !IsSpace(s[k])
    requires n < |s| ==> IsSpace(s[n])
    ensures WordLength(s) == n
  {
  }

  /** The characters of `s` that are not whitespace, in order. */
  function NonSpace(s: string): string {
    if |s| == 0 then "" else (if IsSpace(s[0]) then "" else [s[0]]) + NonSpace(s[1..])
  }

  /** The words written one after another. */
  function Concat(words: seq<string>): string {
    if |words| == 0 then "" else words[0] + Concat(words[1..])
  }

  lemma {:induction false} NonSpaceAppend(a: string, b: string)
    ensures NonSpace(a + b) == NonSpace(a) + NonSpace(b)
    decreases |a|
  {
    if |a| == 0 {
      assert a + b == b;
    } else {
      assert (a + b)[0] == a[0];
      assert (a + b)[1..] == a[1..] + b;
      NonSpaceAppend(a[1..], b);
      var head := if IsSpace(a[0]) then "" else [a[0]];
      AppendAssociative(head, NonSpace(a[1..]), NonSpace(b));
    }
  }

  lemma {:induction false} NonSpaceOfWord(w: string)
    requires forall k :: 0 <= k < |w| ==> !IsSpace(w[k])
    ensures NonSpace(w) == w
    decreases |w|
  {
    if |w| > 0 {
      NonSpaceOfWord(w[1..]);
      assert w == [w[0]] + w[1..];
    }
  }

  lemma {:induction false} NonSpaceOfSpace(sp: string)
    requires AllSpace(sp)
    ensures NonSpace(sp) == ""
    decreases |sp|
  {
    if |sp| > 0 {
      NonSpaceOfSpace(sp[1..]);
    }
  }

  /** `s.split()`: the maximal runs of non-whitespace characters, in order.
      Written one after another they give back every non-whitespace character
      of `s`, and nothing else. */
  function Tokens(s: string): (words: seq<string>)
    ensures forall i :: 0 <= i < |words| ==> IsWord(words[i])
    ensures |words| <= |s|
    ensures Concat(words) == NonSpace(s)
    decreases |s|
  {
    if |s| == 0 then []
    else if IsSpace(s[0]) then Tokens(s[1..])
    else
      var n := WordLength(s);
      var w, rest := s[..n], Tokens(s[n..]);
      assert s == w + s[n..];
      NonSpaceAppend(w, s[n..]);
      NonSpaceOfWord(w);
      assert ([w] + rest)[1..] == rest;
      [w] + rest
  }

  /** A text of whitespace alone has no fields. */
  lemma {:induction false} TokensAllSpace(s: string)
    requires AllSpace(s)
    ensures Tokens(s) == []
    decreases |s|
  {
    if |s| > 0 {
      TokensAllSpace(s[1..]);
    }
  }

  /** Leading whitespace does not change the fields. */
  lemma {:induction false} TokensSpacePrefix(sp: string, s: string)
    requires AllSpace(sp)
    ensures Tokens(sp + s) == Tokens(s)
    decreases |sp|
  {
    if |sp| == 0 {
      assert sp + s == s;
    } else {
      assert IsSpace(sp[0]);
      assert (sp + s)[0] == sp[0];
      assert (sp + s)[1..] == sp[1..] + s;
      TokensSpacePrefix(sp[1..], s);
    }
  }

  /** Trailing whitespace does not change the fields. */
  lemma {:induction false} TokensSpaceSuffix(s: string, sp: string)
    requires AllSpace(sp)
    ensures Tokens(s + sp) == Tokens(s)
    decreases |s|
  {
    var u := s + sp;
    if |s| == 0 {
      assert u == sp;
      TokensAllSpace(sp);
    } else if IsSpace(s[0]) {
      assert u[1..] == s[1..] + sp;
      TokensSpaceSuffix(s[1..], sp);
    } else {
      var n := WordLength(s);
      forall k | 0 <= k < n
        ensures !IsSpace(u[k])
      {
        assert u[k] == s[k];
      }
      if n < |s| {
        assert u[n] == s[n];
      } else if |sp| > 0 {
        assert u[n] == sp[0];
      }
      WordLengthIs(u, n);
      assert u[..n] == s[..n];
      assert u[n..] == s[n..] + sp;
      TokensSpaceSuffix(s[n..], sp);
    }
  }

  /** A word followed by whitespace (or by nothing) is the first field. */
  lemma TokensLeadingWord(w: string, rest: string)
    requires IsWord(w)
    requires |rest| == 0 || IsSpace(rest[0])
    ensures Tokens(w + rest) == [w] + Tokens(rest)
  {
    var s := w + rest;
    forall k | 0 <= k < |w|
      ensures !IsSpace(s[k])
    {
      assert s[k] == w[k];
    }
    if |rest| > 0 {
      assert s[|w|] == rest[0];
    }
    WordLengthIs(s, |w|);
    assert s[..|w|] == w;
    assert s[|w|..] == rest;
  }

  /** The words joined by a whitespace separator. */
  function JoinWords(words: seq<string>, sep: string): string {
    if |words| == 0 then ""
    else if |words| == 1 then words[0]
    else words[0] + sep + JoinWords(words[1..], sep)
  }

  /** `split()` recovers the words that a whitespace separator joined. */
  lemma {:induction false} TokensOfJoin(words: seq<string>, sep: string)
    requires |sep| > 0 && AllSpace(sep)
    requires forall i :: 0 <= i < |words| ==> IsWord(words[i])
    ensures Tokens(JoinWords(words, sep)) == words
    decreases |words|
  {
    if |words| == 1 {
      TokensLeadingWord(words[0], "");
      assert words[0] + "" == words[0];
    } else if |words| > 1 {
      var rest := JoinWords(words[1..], sep);
      assert JoinWords(words, sep) == words[0] + (sep + rest);
      TokensLeadingWord(words[0], sep + rest);
      TokensSpacePrefix(sep, rest);
      TokensOfJoin(words[1..], sep);
      assert words == [words[0]] + words[1..];
    }
  }

  // ---------------------------------------------------------------------------
  // strip()
  // ---------------------------------------------------------------------------

  /** Number of leading whitespace characters of `s`. */
  function LeadingSpace(s: string): (n: nat)
    ensures n <= |s|
    ensures forall k :: 0 <= k < n ==> IsSpace(s[k])
    ensures n < |s| ==> !IsSpace(s[n])
  {
    if |s| == 0 || !IsSpace(s[0]) then 0 else 1 + LeadingSpace(s[1..])
  }

  /** Length of `s` once its trailing whitespace is cut off. */
  function KeptLength(s: string): (n: nat)
    ensures n <= |s|
    ensures forall k :: n <= k < |s| ==> IsSpace(s[k])
    ensures n > 0 ==> !IsSpace(s[n - 1])
  {
    if |s| == 0 || !IsSpace(s[|s| - 1]) then |s| else KeptLength(s[..|s| - 1])
  }

  /** `s.lstrip()`. */
  function TrimStart(s: string): string {
    s[LeadingSpace(s)..]
  }

  /** `s.rstrip()`. */
  function TrimEnd(s: string): string {
    s[..KeptLength(s)]
  }

  /** `s.strip()`: `s` with the whitespace at both ends cut off, and only that. */
  function Strip(s: string): (r: string)
    ensures |r| > 0 ==> !IsSpace(r[0]) && !IsSpace(r[|r| - 1])
    ensures LeadingSpace(s) + |r| <= |s|
    ensures r == s[LeadingSpace(s)..LeadingSpace(s) + |r|]
    ensures AllSpace(s[..LeadingSpace(s)]) && AllSpace(s[LeadingSpace(s) + |r|..])
  {
    var n := LeadingSpace(s);
    StripPieces(s, n, KeptLength(s[n..]));
    TrimEnd(TrimStart(s))
  }

  /** Stripping removes whitespace only. */
  lemma NonSpaceOfStrip(s: string)
    ensures NonSpace(Strip(s)) == NonSpace(s)
  {
    var r := Strip(s);
    var n := LeadingSpace(s);
    var before, after := s[..n], s[n + |r|..];
    assert s == before + r + after;
    NonSpaceAppend(before + r, after);
    NonSpaceAppend(before, r);
    NonSpaceOfSpace(before);
    NonSpaceOfSpace(after);
  }

  /** Cutting `k` characters out of `s[n..]` is slicing `s` itself. */
  lemma StripPieces(s: string, n: nat, k: nat)
    requires n + k <= |s|
    ensures s[n..][..k] == s[n..n + k]
    ensures s[n..][k..] == s[n + k..]
  {
  }

  /** `s.strip().split() == s.split()`: stripping first never changes the fields. */
  lemma TokensOfStrip(s: string)
    ensures Tokens(Strip(s)) == Tokens(s)
  {
    TokensOfTrimStart(s);
    TokensOfTrimEnd(TrimStart(s));
  }

  lemma TokensOfTrimStart(s: string)
    ensures Tokens(TrimStart(s)) == Tokens(s)
  {
    var n := LeadingSpace(s);
    assert s == s[..n] + s[n..];
    TokensSpacePrefix(s[..n], s[n..]);
  }

  lemma TokensOfTrimEnd(s: string)
    ensures Tokens(TrimEnd(s)) == Tokens(s)
  {
    var n := KeptLength(s);
    assert s == s[..n] + s[n..];
    TokensSpaceSuffix(s[..n], s[n..]);
  }
}
