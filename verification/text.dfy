/** String operations the services rely on, written the way the Python and
    JavaScript built-ins behave on ASCII letters: `lower()`, `in` on strings,
    `strip()`, `split()`, `split(sep)`, `replace(pat, "")`, `title()` and the
    regular expression `\b\w+\b`. Whitespace is Python's full `isspace` set. */
module Text {
  import opened Outcome

  predicate IsUpper(c: char) { 'A' <= c <= 'Z' }
  predicate IsLowerLetter(c: char) { 'a' <= c <= 'z' }
  predicate IsDigit(c: char) { '0' <= c <= '9' }
  predicate IsLetter(c: char) { IsUpper(c) || IsLowerLetter(c) }
  /** The ASCII part of the regular-expression class `\w`. */
  predicate IsWordChar(c: char) { IsLetter(c) || IsDigit(c) || c == '_' }

  /** Python's `str.isspace()`: the characters `split()` and `strip()` treat as blanks. */
  predicate IsSpace(c: char) {
    || ('\t' <= c <= '\r')
    || ('\U{1C}' <= c <= ' ')
    || c == '\U{85}' || c == '\U{A0}' || c == '\U{1680}'
    || ('\U{2000}' <= c <= '\U{200A}')
    || c == '\U{2028}' || c == '\U{2029}' || c == '\U{202F}' || c == '\U{205F}' || c == '\U{3000}'
  }

  function LowerChar(c: char): (d: char)
    ensures !IsUpper(d)
    ensures IsLetter(c) <==> IsLetter(d)
  {
    if IsUpper(c) then (c as int + 32) as char else c
  }

  function UpperChar(c: char): (d: char)
    ensures !IsLowerLetter(d)
    ensures LowerChar(d) == LowerChar(c)
  {
    if IsLowerLetter(c) then (c as int - 32) as char else c
  }

  /** `s.lower()` / `s.toLowerCase()` on ASCII letters. */
  function Lower(s: string): (r: string)
    ensures |r| == |s|
    ensures forall i :: 0 <= i < |s| ==> r[i] == LowerChar(s[i])
  {
    seq(|s|, i requires 0 <= i < |s| => LowerChar(s[i]))
  }

  lemma LowerIdempotent(s: string)
    ensures Lower(Lower(s)) == Lower(s)
  {
  }

  lemma LowerAppend(s: string, t: string)
    ensures Lower(s + t) == Lower(s) + Lower(t)
  {
  }

  /** `p in t` for Python strings, `t.includes(p)` in JavaScript. */
  predicate Contains(t: string, p: string)
    decreases |t|
  {
    p <= t || (|t| > 0 && Contains(t[1..], p))
  }

  /** The positional reading of `Contains`: `p` occurs at some offset of `t`. */
  predicate OccursAt(t: string, p: string, k: int) {
    0 <= k && k + |p| <= |t| && t[k..k + |p|] == p
  }

  /** An occurrence at any offset makes `Contains` hold. */
  lemma {:induction false} OccursContains(t: string, p: string, k: int)
    requires OccursAt(t, p, k)
    ensures Contains(t, p)
    decreases k
  {
    if k == 0 {
      assert p <= t;
    } else {
      assert t[1..][k - 1..k - 1 + |p|] == t[k..k + |p|];
      OccursContains(t[1..], p, k - 1);
    }
  }

  lemma {:induction false} ContainsIffOccurs(t: string, p: string)
    ensures Contains(t, p) <==> exists k :: OccursAt(t, p, k)
    decreases |t|
  {
    forall k | OccursAt(t, p, k)
      ensures Contains(t, p)
    {
      OccursContains(t, p, k);
    }
    if p <= t {
      assert OccursAt(t, p, 0);
    } else if |t| > 0 && Contains(t[1..], p) {
      ContainsIffOccurs(t[1..], p);
      var k :| OccursAt(t[1..], p, k);
      assert t[k + 1..k + 1 + |p|] == t[1..][k..k + |p|];
      assert OccursAt(t, p, k + 1);
    }
  }

  /** Whatever `t` contains, its first character occurs in `t`. */
  lemma ContainsStart(t: string, p: string)
    requires |p| > 0
    ensures Contains(t, p) ==> p[0] in t
  {
    ContainsIffOccurs(t, p);
    if Contains(t, p) {
      var k :| OccursAt(t, p, k);
      assert t[k..k + |p|][0] == t[k];
    }
  }

  /** Whatever `t` contains, its first two characters occur side by side in `t`. */
  lemma ContainsStartPair(t: string, p: string)
    requires |p| > 1
    ensures Contains(t, p) ==> exists k :: 0 <= k < |t| - 1 && t[k] == p[0] && t[k + 1] == p[1]
  {
    ContainsIffOccurs(t, p);
    if Contains(t, p) {
      var k :| OccursAt(t, p, k);
      assert t[k..k + |p|][0] == t[k] && t[k..k + |p|][1] == t[k + 1];
    }
  }

  lemma ContainsEmpty(t: string)
    ensures Contains(t, "")
  {
  }

  /** The longest prefix of `s` whose characters all satisfy `keep`. */
  function Span(s: string, keep: char -> bool): (r: string)
    ensures r <= s
    ensures forall i :: 0 <= i < |r| ==> keep(r[i])
    ensures |r| < |s| ==> !keep(s[|r|])
  {
    if |s| > 0 && keep(s[0]) then [s[0]] + Span(s[1..], keep) else []
  }

  /** `s.lstrip()`. */
  function LStrip(s: string): (r: string)
    ensures |r| <= |s| && r == s[|s| - |r|..]
    ensures forall i :: 0 <= i < |s| - |r| ==> IsSpace(s[i])
    ensures |r| > 0 ==> !IsSpace(r[0])
  {
    if |s| > 0 && IsSpace(s[0]) then LStrip(s[1..]) else s
  }

  /** `s.rstrip()`. */
  function RStrip(s: string): (r: string)
    ensures |r| <= |s| && r == s[..|r|]
    ensures forall i :: |r| <= i < |s| ==> IsSpace(s[i])
    ensures |r| > 0 ==> !IsSpace(r[|r| - 1])
  {
    if |s| > 0 && IsSpace(s[|s| - 1]) then RStrip(s[..|s| - 1]) else s
  }

  /** Stripping blanks off the left of `s` into `l` and then off the right of
      `l` into `r` leaves no blank at either end and keeps a piece of `s`;
      nothing is removed when `s` has no blank at either end. */
  lemma StripFacts(s: string, l: string, r: string)
    requires |l| <= |s| && l == s[|s| - |l|..]
    requires forall i :: 0 <= i < |s| - |l| ==> IsSpace(s[i])
    requires |l| > 0 ==> !IsSpace(l[0])
    requires |r| <= |l| && r == l[..|r|]
    requires forall i :: |r| <= i < |l| ==> IsSpace(l[i])
    requires |r| > 0 ==> !IsSpace(r[|r| - 1])
    ensures |r| > 0 ==> !IsSpace(r[0]) && !IsSpace(r[|r| - 1])
    ensures OccursAt(s, r, |s| - |l|)
    ensures |s| > 0 && !IsSpace(s[0]) && !IsSpace(s[|s| - 1]) ==> r == s
  {
    assert forall i :: 0 <= i < |r| ==> r[i] == s[|s| - |l| + i];
    if |s| > 0 && !IsSpace(s[0]) && !IsSpace(s[|s| - 1]) {
      assert |l| == |s|;
      assert l[|l| - 1] == s[|s| - 1];
    }
  }

  /** `s.strip()`: no blank at either end, and only blanks were removed. */
  function Strip(s: string): (r: string)
    ensures |r| > 0 ==> !IsSpace(r[0]) && !IsSpace(r[|r| - 1])
    ensures Contains(s, r)
    ensures |s| > 0 && !IsSpace(s[0]) && !IsSpace(s[|s| - 1]) ==> r == s
  {
    var l := LStrip(s);
    var r := RStrip(l);
    StripFacts(s, l, r);
    OccursContains(s, r, |s| - |l|);
    r
  }

  predicate NotSpace(c: char) { !IsSpace(c) }

  /** Every character is white space (the empty string included). */
  predicate Blank(s: string) {
    forall i :: 0 <= i < |s| ==> IsSpace(s[i])
  }

  /** Lower-casing neither creates nor removes white space. */
  lemma LowerKeepsBlank(s: string)
    ensures Blank(Lower(s)) <==> Blank(s)
  {
    assert forall i :: 0 <= i < |s| ==> (IsSpace(Lower(s)[i]) <==> IsSpace(s[i]));
  }

  /** `s.split()[0]` when it exists: the first maximal run of non-blank
      characters; `None` where Python raises `IndexError`. */
  function FirstWord(s: string): (r: Option<string>)
    ensures r.None? <==> Blank(s)
    ensures r.Some? ==> |r.value| > 0 && forall i :: 0 <= i < |r.value| ==> !IsSpace(r.value[i])
    ensures r.Some? ==> r.value <= LStrip(s)
    ensures r.Some? && |r.value| < |LStrip(s)| ==> IsSpace(LStrip(s)[|r.value|])
  {
    var t := LStrip(s);
    if |t| == 0 then None else Some(Span(t, NotSpace))
  }

  /** `s.split(sep)` for a one-character separator: always at least one
      piece, and no piece contains the separator. */
  function Split(s: string, sep: char): (r: seq<string>)
    ensures |r| >= 1
    ensures forall i :: 0 <= i < |r| ==> sep !in r[i]
  {
    if |s| == 0 then [""]
    else
      var rest := Split(s[1..], sep);
      if s[0] == sep then [""] + rest else [[s[0]] + rest[0]] + rest[1..]
  }

  /** `sep.join(parts)`. */
  function Join(parts: seq<string>, sep: char): string
    requires |parts| >= 1
  {
    if |parts| == 1 then parts[0] else parts[0] + [sep] + Join(parts[1..], sep)
  }

  /** Splitting loses nothing: joining the pieces back gives the text. */
  lemma {:induction false} JoinSplit(s: string, sep: char)
    ensures Join(Split(s, sep), sep) == s
  {
    if |s| > 0 {
      JoinSplit(s[1..], sep);
      var rest := Split(s[1..], sep);
      if s[0] == sep {
        assert Split(s, sep)[1..] == rest;
      } else {
        var r := Split(s, sep);
        if |rest| == 1 {
          assert r == [[s[0]] + rest[0]];
        } else {
          assert r[1..] == rest[1..];
          assert Join(r, sep) == [s[0]] + rest[0] + [sep] + Join(rest[1..], sep);
        }
        assert s == [s[0]] + s[1..];
      }
    }
  }

  /** Two prefixes of one text agree on their common length. */
  lemma PrefixesAgree(t: string, a: string, b: string, n: nat)
    requires n <= |a| && n <= |b|
    ensures a <= t && b <= t ==> a[..n] == b[..n]
  {
  }

  /** `s.replace(pat, "")`: one left-to-right pass deleting non-overlapping
      occurrences; an empty pattern deletes nothing. */
  function RemoveAll(s: string, pat: string): (r: string)
    ensures |r| <= |s|
    ensures !Contains(s, pat) ==> r == s
    decreases |s|
  {
    if |pat| == 0 then s
    else if pat <= s then RemoveAll(s[|pat|..], pat)
    else if |s| == 0 then []
    else [s[0]] + RemoveAll(s[1..], pat)
  }

  function TitleFrom(s: string, prevCased: bool): (r: string)
    ensures |r| == |s|
    ensures Lower(r) == Lower(s)
  {
    if |s| == 0 then []
    else
      var c := s[0];
      var d := if !IsLetter(c) then c else if prevCased then LowerChar(c) else UpperChar(c);
      assert Lower(s) == [LowerChar(c)] + Lower(s[1..]);
      [d] + TitleFrom(s[1..], IsLetter(c))
  }

  /** After a letter, a run of lower-case letters keeps its case. */
  lemma {:induction false} TitleFromKeepsLower(s: string)
    requires forall i :: 0 <= i < |s| ==> IsLowerLetter(s[i])
    ensures TitleFrom(s, true) == s
  {
    if |s| > 0 {
      TitleFromKeepsLower(s[1..]);
      assert s == [s[0]] + s[1..];
    }
  }

  /** A lower-case word title-cases to its capitalised form. */
  lemma TitleCaseLowerWord(s: string)
    requires |s| > 0 && forall i :: 0 <= i < |s| ==> IsLowerLetter(s[i])
    ensures TitleCase(s) == [UpperChar(s[0])] + s[1..]
  {
    TitleFromKeepsLower(s[1..]);
  }

  /** `s.title()`: each letter that follows a non-letter is upper-cased and every
      other letter lower-cased; only the case of letters changes. */
  function TitleCase(s: string): (r: string)
    ensures |r| == |s|
    ensures Lower(r) == Lower(s)
    ensures |s| > 0 && IsLetter(s[0]) ==> IsUpper(r[0])
  {
    TitleFrom(s, false)
  }

  /** `s.title()` reads letters only up to case: a lower-cased text title-cases alike. */
  lemma {:induction false} TitleFromLower(s: string, prevCased: bool)
    ensures TitleFrom(Lower(s), prevCased) == TitleFrom(s, prevCased)
    decreases |s|
  {
    if |s| > 0 {
      assert Lower(s)[1..] == Lower(s[1..]);
      TitleFromLower(s[1..], IsLetter(s[0]));
    }
  }

  lemma TitleCaseLower(s: string)
    ensures TitleCase(Lower(s)) == TitleCase(s)
  {
    TitleFromLower(s, false);
  }

  /** Lower-casing never turns a blank into a non-blank or back. */
  lemma LowerCharSpace(c: char)
    ensures IsSpace(LowerChar(c)) == IsSpace(c)
  {
    if IsUpper(c) {
      assert IsLowerLetter(LowerChar(c));
    }
  }

  lemma {:induction false} LStripLower(s: string)
    ensures LStrip(Lower(s)) == Lower(LStrip(s))
    decreases |s|
  {
    if |s| > 0 {
      var t := Lower(s);
      assert t[0] == LowerChar(s[0]) && t[1..] == Lower(s[1..]);
      LowerCharSpace(s[0]);
      LStripLower(s[1..]);
    }
  }

  lemma {:induction false} SpanLower(s: string)
    ensures Span(Lower(s), NotSpace) == Lower(Span(s, NotSpace))
    decreases |s|
  {
    if |s| > 0 {
      assert Lower(s)[1..] == Lower(s[1..]);
      LowerCharSpace(s[0]);
      SpanLower(s[1..]);
      if NotSpace(s[0]) {
        assert Lower([s[0]] + Span(s[1..], NotSpace)) == [LowerChar(s[0])] + Lower(Span(s[1..], NotSpace));
      }
    }
  }

  /** The first word of the lower-cased text is the lower-cased first word. */
  lemma FirstWordLower(s: string)
    ensures FirstWord(Lower(s)).Some? <==> FirstWord(s).Some?
    ensures FirstWord(s).Some? ==> FirstWord(Lower(s)).value == Lower(FirstWord(s).value)
  {
    LStripLower(s);
    SpanLower(LStrip(s));
  }

  /** A title that repeats a piece around a middle part contains the piece. */
  lemma ContainsTwice(prefix: string, t: string, middle: string, suffix: string)
    ensures Contains(prefix + t + middle + t + suffix, t)
  {
    ContainsAt(prefix + t + middle + t + suffix, t, |prefix|);
  }

  lemma ContainsLeading(t: string, middle: string, suffix: string)
    ensures Contains(t + middle + t + suffix, t)
  {
    ContainsAt(t + middle + t + suffix, t, 0);
  }

  lemma ContainsAfter(prefix: string, t: string, middle: string, suffix: string)
    ensures Contains(prefix + t + middle + suffix, t)
  {
    ContainsAt(prefix + t + middle + suffix, t, |prefix|);
  }

  /** A string whose characters appear in `t` from offset `k` on is contained in `t`. */
  lemma ContainsAt(t: string, p: string, k: nat)
    requires k + |p| <= |t| && forall i :: 0 <= i < |p| ==> t[k + i] == p[i]
    ensures Contains(t, p)
  {
    assert t[k..k + |p|] == p;
    OccursContains(t, p, k);
  }

  predicate NotWordChar(c: char) { !IsWordChar(c) }

  /** The first index from `pos` on whose character fails `keep`, or `|s|`. */
  function SkipWhile(s: string, pos: nat, keep: char -> bool): (r: nat)
    requires pos <= |s|
    ensures pos <= r <= |s|
    ensures forall k :: pos <= k < r ==> keep(s[k])
    ensures r < |s| ==> !keep(s[r])
    decreases |s| - pos
  {
    if pos < |s| && keep(s[pos]) then SkipWhile(s, pos + 1, keep) else pos
  }

  /** `s[i..j]` is a maximal run of word characters: one match of `\b\w+\b`. */
  predicate RunAt(s: string, i: int, j: int) {
    && 0 <= i < j <= |s|
    && (forall k :: i <= k < j ==> IsWordChar(s[k]))
    && (i == 0 || !IsWordChar(s[i - 1]))
    && (j == |s| || !IsWordChar(s[j]))
  }

  /** `w` is a match of `\b\w+\b` that starts at or after `pos`. */
  ghost predicate WordFrom(w: string, s: string, pos: int) {
    exists i, j :: pos <= i && RunAt(s, i, j) && s[i..j] == w
  }

  /** `w` is one of the matches of `\b\w+\b` in `s`. */
  ghost predicate IsWordOf(w: string, s: string) { WordFrom(w, s, 0) }

  /** No run of word characters straddles `pos`. */
  predicate AtBoundary(s: string, pos: nat)
    requires pos <= |s|
  {
    pos == 0 || pos == |s| || !IsWordChar(s[pos - 1]) || !IsWordChar(s[pos])
  }

  /** A stretch of non-word characters from `pos` to `i` holds no run's start. */
  lemma NoRunBefore(s: string, pos: nat, i: nat)
    requires pos <= i <= |s|
    requires forall k :: pos <= k < i ==> !IsWordChar(s[k])
    ensures forall a, b :: pos <= a && RunAt(s, a, b) ==> i <= a
  {
    forall a, b | pos <= a && RunAt(s, a, b)
      ensures i <= a
    {
      assert IsWordChar(s[a]);
    }
  }

  /** A word character after a boundary starts exactly one run, the one that
      ends at the next non-word character, and no other run starts inside it. */
  lemma RunFromStart(s: string, i: nat, j: nat)
    requires i < j <= |s| && (i == 0 || !IsWordChar(s[i - 1]))
    requires forall k :: i <= k < j ==> IsWordChar(s[k])
    requires j < |s| ==> !IsWordChar(s[j])
    ensures RunAt(s, i, j)
    ensures forall a, b :: i <= a && RunAt(s, a, b) ==> (a == i && b == j) || j <= a
  {
  }

  /** The matches of `\b\w+\b` from `pos` on, left to right. */
  function TokensFrom(s: string, pos: nat): seq<string>
    requires pos <= |s|
    decreases |s| - pos
  {
    var i := SkipWhile(s, pos, NotWordChar);
    if i == |s| then []
    else
      var j := SkipWhile(s, i, IsWordChar);
      [s[i..j]] + TokensFrom(s, j)
  }

  /** From a boundary on, the tokens are exactly the maximal runs of word
      characters that start there or later. */
  lemma {:induction false} TokensFromRuns(s: string, pos: nat)
    requires pos <= |s| && AtBoundary(s, pos)
    ensures forall w :: w in TokensFrom(s, pos) <==> WordFrom(w, s, pos)
    decreases |s| - pos
  {
    var i := SkipWhile(s, pos, NotWordChar);
    NoRunBefore(s, pos, i);
    if i < |s| {
      var j := SkipWhile(s, i, IsWordChar);
      RunFromStart(s, i, j);
      TokensFromRuns(s, j);
      var r := TokensFrom(s, pos);
      assert r == [s[i..j]] + TokensFrom(s, j);
      forall w
        ensures w in r <==> WordFrom(w, s, pos)
      {
        if w in TokensFrom(s, j) {
          var a, b :| j <= a && RunAt(s, a, b) && s[a..b] == w;
        }
        if WordFrom(w, s, pos) {
          var a, b :| pos <= a && RunAt(s, a, b) && s[a..b] == w;
          assert (a == i && b == j) || WordFrom(w, s, j);
        }
      }
    }
  }

  /** `re.findall(r"\b\w+\b", s)`: a string is a token exactly when it is a
      maximal run of word characters of `s`. The tokens come left to right. */
  function WordTokens(s: string): (r: seq<string>)
    ensures forall w :: w in r <==> IsWordOf(w, s)
  {
    TokensFromRuns(s, 0);
    TokensFrom(s, 0)
  }
}
