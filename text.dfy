/** The string operations the agent engine relies on, with the semantics of
    the Python and JavaScript built-ins they stand for: `in` and
    `str.replace(old, new, 1)`, `str.strip()`, `str.lower()` on the status
    names, slicing caps, `"\n".join`, `str.split`, `str.splitlines()`, `str(n)`
    and code-point ordering of strings. */
module Text {
  import opened Wrappers

  // ---------------------------------------------------------------------
  // Substring search and first-occurrence replacement
  // ---------------------------------------------------------------------

  /** `sub` occurs in `s` starting at index `i`. */
  predicate OccursAt(s: string, sub: string, i: nat)
  {
    i + |sub| <= |s| && s[i..i + |sub|] == sub
  }

  /** Python's `sub in s` (true for the empty `sub`). */
  predicate Contains(s: string, sub: string)
  {
    exists i | 0 <= i <= |s| :: OccursAt(s, sub, i)
  }

  /** The first index at or after `from` where `sub` occurs, if any. */
  function FindFrom(s: string, sub: string, from: nat): (r: Option<nat>)
    requires from <= |s|
    ensures r.Some? ==> from <= r.value && OccursAt(s, sub, r.value)
    ensures r.Some? ==> forall j :: from <= j < r.value ==> !OccursAt(s, sub, j)
    ensures r.None? ==> forall j :: from <= j ==> !OccursAt(s, sub, j)
    decreases |s| - from
  {
    if from + |sub| > |s| then None
    else if s[from..from + |sub|] == sub then Some(from)
    else FindFrom(s, sub, from + 1)
  }

  function FindFirst(s: string, sub: string): (r: Option<nat>)
    ensures r.Some? <==> Contains(s, sub)
    ensures r.Some? ==> OccursAt(s, sub, r.value) && forall j :: 0 <= j < r.value ==> !OccursAt(s, sub, j)
  {
    FindFrom(s, sub, 0)
  }

  /** Python's `s.replace(old, new, 1)`: only the first occurrence of `pat`
      is replaced; a string without `pat` comes back unchanged. */
  function ReplaceFirst(s: string, pat: string, rep: string): (r: string)
    ensures !Contains(s, pat) ==> r == s
  {
    match FindFirst(s, pat)
    case None => s
    case Some(k) => s[..k] + rep + s[k + |pat|..]
  }

  /** The replacement happens at the FIRST occurrence and nowhere else: the
      text before it and the text after it are kept as they were. */
  lemma ReplaceFirstAtFirstOccurrence(s: string, pat: string, rep: string, k: nat)
    requires OccursAt(s, pat, k)
    requires forall j :: 0 <= j < k ==> !OccursAt(s, pat, j)
    ensures ReplaceFirst(s, pat, rep) == s[..k] + rep + s[k + |pat|..]
  {
    assert Contains(s, pat);
  }

  /** A later occurrence of `pat` that does not overlap the first survives the
      replacement, shifted by the change in length. */
  lemma ReplaceFirstKeepsLaterOccurrence(s: string, pat: string, rep: string, k: nat, m: nat)
    requires OccursAt(s, pat, k)
    requires forall j :: 0 <= j < k ==> !OccursAt(s, pat, j)
    requires k + |pat| <= m && OccursAt(s, pat, m)
    ensures OccursAt(ReplaceFirst(s, pat, rep), pat, m - |pat| + |rep|)
  {
    ReplaceFirstAtFirstOccurrence(s, pat, rep, k);
    var r := ReplaceFirst(s, pat, rep);
    var m' := m - |pat| + |rep|;
    assert r == s[..k] + rep + s[k + |pat|..];
    assert |r| == |s| - |pat| + |rep|;
    forall t | 0 <= t < |pat|
      ensures r[m' + t] == pat[t]
    {
      assert r[m' + t] == s[k + |pat|..][m' + t - k - |rep|];
      assert s[m..m + |pat|][t] == s[m + t];
    }
    assert r[m'..m' + |pat|] == pat;
  }

  // ---------------------------------------------------------------------
  // Whitespace and Python's str.strip()
  // ---------------------------------------------------------------------

  /** Python's `str.isspace()` for one character. */
  predicate IsPySpace(c: char)
  {
    || c == ' ' || c == '\t' || c == '\n' || c == '\r' || c == '\U{0B}' || c == '\U{0C}'
    || ('\U{1C}' <= c <= '\U{1F}') || c == '\U{85}' || c == '\U{A0}' || c == '\U{1680}'
    || ('\U{2000}' <= c <= '\U{200A}') || c == '\U{2028}' || c == '\U{2029}'
    || c == '\U{202F}' || c == '\U{205F}' || c == '\U{3000}'
  }

  predicate AllPySpace(s: string)
  {
    forall k :: 0 <= k < |s| ==> IsPySpace(s[k])
  }

  /** Python's `str.lstrip()`. */
  function LStrip(s: string): string
  {
    if s != [] && IsPySpace(s[0]) then LStrip(s[1..]) else s
  }

  /** `lstrip()` keeps the input's last `|r|` characters and cuts nothing
      but whitespace before them. */
  lemma {:induction false} LStripShape(s: string)
    ensures var r := LStrip(s);
      && |r| <= |s|
      && (forall k :: 0 <= k < |r| ==> r[k] == s[|s| - |r| + k])
      && (forall k :: 0 <= k < |s| - |r| ==> IsPySpace(s[k]))
      && (r != [] ==> !IsPySpace(r[0]))
    decreases |s|
  {
    if s != [] && IsPySpace(s[0]) {
      var t, r := s[1..], LStrip(s);
      LStripShape(t);
      forall k | 0 <= k < |r|
        ensures r[k] == s[|s| - |r| + k]
      {
        assert r[k] == t[|t| - |r| + k];
      }
      forall k | 0 <= k < |s| - |r|
        ensures IsPySpace(s[k])
      {
        if k > 0 {
          assert s[k] == t[k - 1];
        }
      }
    }
  }

  /** Python's `str.rstrip()`. */
  function RStrip(s: string): string
  {
    if s != [] && IsPySpace(s[|s| - 1]) then RStrip(s[..|s| - 1]) else s
  }

  /** `rstrip()` keeps the input's first `|r|` characters and cuts nothing
      but whitespace after them. */
  lemma {:induction false} RStripShape(s: string)
    ensures var r := RStrip(s);
      && |r| <= |s|
      && (forall k :: 0 <= k < |r| ==> r[k] == s[k])
      && (forall k :: |r| <= k < |s| ==> IsPySpace(s[k]))
      && (r != [] ==> !IsPySpace(r[|r| - 1]))
    decreases |s|
  {
    if s != [] && IsPySpace(s[|s| - 1]) {
      RStripShape(s[..|s| - 1]);
    }
  }

  /** `r` sits in `s` after `lead` characters,
      and everything removed was whitespace. */
  predicate StrippedFrom(s: string, r: string, lead: int)
  {
    && 0 <= lead && lead + |r| <= |s|
    && (forall k :: 0 <= k < |r| ==> r[k] == s[lead + k])
    && (forall k :: 0 <= k < lead ==> IsPySpace(s[k]))
    && (forall k :: lead + |r| <= k < |s| ==> IsPySpace(s[k]))
  }

  /** Python's `str.strip()`. */
  function Strip(s: string): string
  {
    RStrip(LStrip(s))
  }

  /** `strip()` keeps a slice of the input and cuts nothing but whitespace
      around it; the result neither starts nor ends with whitespace, and it
      is empty exactly when the input is all whitespace. */
  lemma StripShape(s: string)
    ensures StrippedFrom(s, Strip(s), |s| - |LStrip(s)|)
    ensures Strip(s) != [] ==> !IsPySpace(Strip(s)[0]) && !IsPySpace(Strip(s)[|Strip(s)| - 1])
    ensures Strip(s) == [] <==> AllPySpace(s)
  {
    StripSlice(s);
    StripEnds(s);
    StripEmpty(s);
  }

  lemma StripSlice(s: string)
    ensures StrippedFrom(s, Strip(s), |s| - |LStrip(s)|)
  {
    StripBody(s);
    StripTail(s);
  }

  /** What survives both strips is the slice of `s` after the leading spaces. */
  lemma StripBody(s: string)
    ensures var lead := |s| - |LStrip(s)|;
      && 0 <= lead && lead + |Strip(s)| <= |s|
      && (forall k :: 0 <= k < |Strip(s)| ==> Strip(s)[k] == s[lead + k])
      && (forall k :: 0 <= k < lead ==> IsPySpace(s[k]))
  {
    var l := LStrip(s);
    var r := RStrip(l);
    var lead := |s| - |l|;
    LStripShape(s);
    RStripShape(l);
    forall k | 0 <= k < |r|
      ensures r[k] == s[lead + k]
    {
      assert r[k] == l[k];
    }
  }

  /** What the right strip removed is whitespace of `s` itself. */
  lemma StripTail(s: string)
    ensures |Strip(s)| <= |LStrip(s)| <= |s|
    ensures forall k :: |s| - |LStrip(s)| + |Strip(s)| <= k < |s| ==> IsPySpace(s[k])
  {
    var l := LStrip(s);
    var r := RStrip(l);
    var lead := |s| - |l|;
    LStripShape(s);
    RStripShape(l);
    forall k | lead + |r| <= k < |s|
      ensures IsPySpace(s[k])
    {
      assert IsPySpace(l[k - lead]);
    }
  }

  lemma StripEnds(s: string)
    ensures Strip(s) != [] ==> !IsPySpace(Strip(s)[0]) && !IsPySpace(Strip(s)[|Strip(s)| - 1])
  {
    var l := LStrip(s);
    LStripShape(s);
    RStripShape(l);
  }

  lemma StripEmpty(s: string)
    ensures Strip(s) == [] <==> AllPySpace(s)
  {
    var r := Strip(s);
    var lead := |s| - |LStrip(s)|;
    StripSlice(s);
    StripEnds(s);
    if r != [] {
      assert s[lead] == r[0];
    }
  }

  lemma {:induction false} StripIdempotent(s: string)
    ensures Strip(Strip(s)) == Strip(s)
  {
    var r := Strip(s);
    StripShape(s);
    if r != [] {
      assert LStrip(r) == r;
      assert RStrip(r) == r;
    }
  }

  /** JavaScript's `String.prototype.trim` whitespace: WhiteSpace and
      LineTerminator code points. */
  predicate IsJsSpace(c: char)
  {
    || c == ' ' || c == '\t' || c == '\n' || c == '\r' || c == '\U{0B}' || c == '\U{0C}'
    || c == '\U{A0}' || c == '\U{FEFF}' || c == '\U{1680}' || ('\U{2000}' <= c <= '\U{200A}')
    || c == '\U{2028}' || c == '\U{2029}' || c == '\U{202F}' || c == '\U{205F}' || c == '\U{3000}'
  }

  /** `s.trim()` is the empty string, i.e. falsy in JavaScript. */
  predicate JsBlank(s: string)
  {
    forall k :: 0 <= k < |s| ==> IsJsSpace(s[k])
  }

  // ---------------------------------------------------------------------
  // Case, caps and numbers
  // ---------------------------------------------------------------------

  function LowerChar(c: char): char
  {
    if 'A' <= c <= 'Z' then (c as int + 32) as char else c
  }

  /** `str.lower()` restricted to ASCII letters. */
  function Lower(s: string): (r: string)
    ensures |r| == |s|
  {
    seq(|s|, k requires 0 <= k < |s| => LowerChar(s[k]))
  }

  /** Python's `s[:n]` for a non-negative `n`. */
  function Take(s: string, n: nat): (r: string)
    ensures |r| == if |s| <= n then |s| else n
    ensures r <= s
  {
    if |s| <= n then s else s[..n]
  }

  predicate IsDigit(c: char)
  {
    '0' <= c <= '9'
  }

  function Digit(d: nat): (c: char)
    requires d < 10
    ensures IsDigit(c) && c as int - '0' as int == d
  {
    ('0' as int + d) as char
  }

  /** Python's `str(n)` for a non-negative integer: decimal digits without
      leading zeros. */
  function NatToString(n: nat): (r: string)
    ensures |r| >= 1 && forall k :: 0 <= k < |r| ==> IsDigit(r[k])
    ensures r[0] == '0' ==> n == 0
    decreases n
  {
    if n < 10 then [Digit(n)] else NatToString(n / 10) + [Digit(n % 10)]
  }

  /** The value of a string of decimal digits. */
  function DigitsValue(s: string): nat
    requires forall k :: 0 <= k < |s| ==> IsDigit(s[k])
  {
    if s == [] then 0
    else
      var last := s[|s| - 1];
      assert IsDigit(last);
      DigitsValue(s[..|s| - 1]) * 10 + (last as int - '0' as int)
  }

  /** `str(n)` is read back as `n`. */
  lemma {:induction false} NatToStringRoundTrip(n: nat)
    ensures DigitsValue(NatToString(n)) == n
    decreases n
  {
    if n >= 10 {
      NatToStringRoundTrip(n / 10);
      var s := NatToString(n);
      assert s[..|s| - 1] == NatToString(n / 10);
    }
  }

  /** Distinct numbers print differently. */
  lemma NatToStringInjective(m: nat, n: nat)
    requires NatToString(m) == NatToString(n)
    ensures m == n
  {
    NatToStringRoundTrip(m);
    NatToStringRoundTrip(n);
  }

  // ---------------------------------------------------------------------
  // Join and split
  // ---------------------------------------------------------------------

  /** Python's `sep.join(xs)`. */
  function Join(xs: seq<string>, sep: string): string
  {
    if |xs| == 0 then ""
    else if |xs| == 1 then xs[0]
    else xs[0] + sep + Join(xs[1..], sep)
  }

  lemma {:induction false} JoinSnoc(xs: seq<string>, x: string, sep: string)
    requires |xs| >= 1
    ensures Join(xs + [x], sep) == Join(xs, sep) + sep + x
  {
    if |xs| > 1 {
      JoinSnoc(xs[1..], x, sep);
      assert (xs + [x])[1..] == xs[1..] + [x];
    }
  }

  /** Appending `sep + t` as the last piece is appending an empty piece and `t`. */
  lemma {:induction false} JoinBlankLine(xs: seq<string>, sep: string, t: string)
    requires |xs| >= 1
    ensures Join(xs + [sep + t], sep) == Join(xs + ["", t], sep)
  {
    var body := Join(xs, sep);
    var ys := xs + [""];
    assert xs + ["", t] == ys + [t];
    assert Join(xs + [sep + t], sep) == body + sep + (sep + t) by {
      JoinSnoc(xs, sep + t, sep);
    }
    assert Join(ys, sep) == body + sep by {
      JoinSnoc(xs, "", sep);
      assert body + sep + "" == body + sep;
    }
    assert Join(ys + [t], sep) == body + sep + sep + t by {
      JoinSnoc(ys, t, sep);
    }
    assert body + sep + (sep + t) == body + sep + sep + t;
  }

  /** Python's `s.split(c)` for a one-character separator (always at least one
      piece; adjacent separators give empty pieces). */
  function SplitOn(s: string, c: char): (r: seq<string>)
    ensures |r| >= 1
  {
    if s == [] then [""]
    else
      var rest := SplitOn(s[1..], c);
      if s[0] == c then [""] + rest else [[s[0]] + rest[0]] + rest[1..]
  }

  lemma {:induction false} SplitOnFree(a: string, c: char)
    requires c !in a
    ensures SplitOn(a, c) == [a]
  {
    if a != [] {
      SplitOnFree(a[1..], c);
      assert [a[0]] + a[1..] == a;
    }
  }

  lemma {:induction false} SplitOnPiece(a: string, c: char, b: string)
    requires c !in a
    ensures SplitOn(a + [c] + b, c) == [a] + SplitOn(b, c)
  {
    if a == [] {
      assert a + [c] + b == [c] + b;
      assert ([c] + b)[1..] == b;
    } else {
      SplitOnPiece(a[1..], c, b);
      assert (a + [c] + b)[1..] == a[1..] + [c] + b;
      assert [a[0]] + a[1..] == a;
    }
  }

  /** Splitting a join undoes it, when no piece contains the separator. */
  lemma {:induction false} SplitJoin(xs: seq<string>, c: char)
    requires |xs| >= 1
    requires forall k :: 0 <= k < |xs| ==> c !in xs[k]
    ensures SplitOn(Join(xs, [c]), c) == xs
  {
    if |xs| == 1 {
      SplitOnFree(xs[0], c);
    } else {
      SplitJoin(xs[1..], c);
      SplitOnPiece(xs[0], c, Join(xs[1..], [c]));
      assert [xs[0]] + xs[1..] == xs;
    }
  }

  /** Joining the pieces of a split gives the string back. */
  lemma {:induction false} JoinSplit(s: string, c: char)
    ensures Join(SplitOn(s, c), [c]) == s
  {
    if s != [] {
      JoinSplit(s[1..], c);
      var rest := SplitOn(s[1..], c);
      if s[0] == c {
        assert ([""] + rest)[1..] == rest;
      } else if |rest| > 1 {
        assert ([[s[0]] + rest[0]] + rest[1..])[1..] == rest[1..];
        assert Join(rest, [c]) == rest[0] + [c] + Join(rest[1..], [c]);
      }
      assert [s[0]] + s[1..] == s;
    }
  }

  /** The pieces of a split never contain the separator. */
  lemma {:induction false} SplitOnPiecesFree(s: string, c: char)
    ensures forall k :: 0 <= k < |SplitOn(s, c)| ==> c !in SplitOn(s, c)[k]
  {
    if s != [] {
      SplitOnPiecesFree(s[1..], c);
    }
  }

  // ---------------------------------------------------------------------
  // Python's str.splitlines()
  // ---------------------------------------------------------------------

  /** The line boundaries `str.splitlines()` recognises. */
  predicate IsLineBreak(c: char)
  {
    || c == '\n' || c == '\r' || c == '\U{0B}' || c == '\U{0C}' || c == '\U{1C}' || c == '\U{1D}'
    || c == '\U{1E}' || c == '\U{85}' || c == '\U{2028}' || c == '\U{2029}'
  }

  predicate NoLineBreak(s: string)
  {
    forall k :: 0 <= k < |s| ==> !IsLineBreak(s[k])
  }

  /** The index of the first line boundary in `s`, or `|s|`. */
  function FirstBreak(s: string): (k: nat)
    ensures k <= |s| && NoLineBreak(s[..k])
    ensures k < |s| ==> IsLineBreak(s[k])
  {
    if s == [] then 0
    else if IsLineBreak(s[0]) then 0
    else
      var k := FirstBreak(s[1..]);
      assert s[..k + 1] == [s[0]] + s[1..][..k];
      k + 1
  }

  /** Python's `str.splitlines()`: lines without their terminators, `\r\n`
      counted as one terminator, no empty last line for a final terminator. */
  function SplitLines(s: string): (r: seq<string>)
    ensures forall k :: 0 <= k < |r| ==> NoLineBreak(r[k])
    ensures r == [] <==> s == []
    decreases |s|
  {
    if s == [] then []
    else
      var k := FirstBreak(s);
      if k == |s| then [s]
      else
        var skip := if s[k] == '\r' && k + 1 < |s| && s[k + 1] == '\n' then 2 else 1;
        [s[..k]] + SplitLines(s[k + skip..])
  }

  /** On text whose only line boundary is `\n` and which does not end with
      one, `splitlines()` is `split("\n")`. */
  lemma {:induction false} SplitLinesIsSplitOnNewline(s: string)
    requires s != [] && s[|s| - 1] != '\n'
    requires forall k :: 0 <= k < |s| ==> s[k] == '\n' || !IsLineBreak(s[k])
    ensures SplitLines(s) == SplitOn(s, '\n')
    decreases |s|
  {
    var k := FirstBreak(s);
    if k == |s| {
      SplitOnFree(s, '\n');
    } else {
      var rest := s[k + 1..];
      NewlineCut(s, k);
      SplitLinesIsSplitOnNewline(rest);
      SplitOnPiece(s[..k], '\n', rest);
    }
  }

  /** Cutting the text of `SplitLinesIsSplitOnNewline` at its first line
      boundary, a `\n`, leaves a rest that meets the lemma's requirements. */
  lemma NewlineCut(s: string, k: nat)
    requires s != [] && s[|s| - 1] != '\n'
    requires forall k :: 0 <= k < |s| ==> s[k] == '\n' || !IsLineBreak(s[k])
    requires k < |s| && IsLineBreak(s[k])
    ensures s[k] == '\n' && k + 1 < |s|
    ensures s == s[..k] + ['\n'] + s[k + 1..]
    ensures var rest := s[k + 1..];
      rest[|rest| - 1] != '\n' && forall j :: 0 <= j < |rest| ==> rest[j] == '\n' || !IsLineBreak(rest[j])
  {
    var rest := s[k + 1..];
    forall j | 0 <= j < |rest|
      ensures rest[j] == '\n' || !IsLineBreak(rest[j])
    {
      assert rest[j] == s[k + 1 + j];
    }
  }

  // ---------------------------------------------------------------------
  // Code-point order of strings (Python's `<` on str)
  // ---------------------------------------------------------------------

  predicate LexLe(a: string, b: string)
  {
    if a == [] then true
    else if b == [] then false
    else if a[0] != b[0] then a[0] < b[0]
    else LexLe(a[1..], b[1..])
  }

  lemma {:induction false} LexLeTotal(a: string, b: string)
    ensures LexLe(a, b) || LexLe(b, a)
  {
    if a != [] && b != [] && a[0] == b[0] {
      LexLeTotal(a[1..], b[1..]);
    }
  }

  lemma {:induction false} LexLeTransitive(a: string, b: string, c: string)
    requires LexLe(a, b) && LexLe(b, c)
    ensures LexLe(a, c)
  {
    if a != [] && b != [] && c != [] && a[0] == b[0] && b[0] == c[0] {
      LexLeTransitive(a[1..], b[1..], c[1..]);
    }
  }

  lemma {:induction false} LexLeAntisymmetric(a: string, b: string)
    requires LexLe(a, b) && LexLe(b, a)
    ensures a == b
  {
    if a != [] && b != [] {
      LexLeAntisymmetric(a[1..], b[1..]);
      assert a == [a[0]] + a[1..] && b == [b[0]] + b[1..];
    }
  }
}
