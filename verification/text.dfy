/**
 * String operations the views use, over `seq<char>`: ASCII case folding
 * (`toLowerCase`/`toUpperCase`), `includes`, `trim() === ''`, `split` on one
 * character, `join`, a global literal `replace`, and decimal rendering of
 * naturals (template literals such as `${n}`).
 */
module Text {
  import opened Common

  /** The ASCII part of JavaScript's `\s` (what `trim` and `/\s+/` remove). */
  predicate IsSpace(c: char)
  {
    c == ' ' || c == '\t' || c == '\n' || c == '\U{000B}' || c == '\U{000C}' || c == '\r'
  }

  predicate IsAsciiUpper(c: char) { 'A' <= c <= 'Z' }

  predicate IsAsciiLower(c: char) { 'a' <= c <= 'z' }

  predicate IsDigit(c: char) { '0' <= c <= '9' }

  /** `c.toLowerCase()` restricted to ASCII. */
  function LowerChar(c: char): (d: char)
    ensures IsAsciiUpper(c) ==> IsAsciiLower(d) && d as int == c as int + 32
    ensures !IsAsciiUpper(c) ==> d == c
  {
    if IsAsciiUpper(c) then (c as int + 32) as char else c
  }

  /** `c.toUpperCase()` restricted to ASCII. */
  function UpperChar(c: char): (d: char)
    ensures IsAsciiLower(c) ==> IsAsciiUpper(d) && d as int == c as int - 32
    ensures !IsAsciiLower(c) ==> d == c
  {
    if IsAsciiLower(c) then (c as int - 32) as char else c
  }

  /** `s.toLowerCase()` restricted to ASCII: every character folded, the length kept. */
  function Lower(s: string): (r: string)
    ensures |r| == |s|
    ensures forall i :: 0 <= i < |s| ==> r[i] == LowerChar(s[i])
    decreases |s|
  {
    if s == [] then [] else [LowerChar(s[0])] + Lower(s[1..])
  }

  /** White space removed from the front of `s`. */
  function TrimStart(s: string): (r: string)
    ensures |r| <= |s| && r == s[|s| - |r|..]
    ensures r != [] ==> !IsSpace(r[0])
    ensures forall i :: 0 <= i < |s| - |r| ==> IsSpace(s[i])
    decreases |s|
  {
    if s != [] && IsSpace(s[0]) then TrimStart(s[1..]) else s
  }

  /** White space removed from the end of `s`. */
  function TrimEnd(s: string): (r: string)
    ensures |r| <= |s| && r == s[..|r|]
    ensures r != [] ==> !IsSpace(r[|r| - 1])
    ensures forall i :: |r| <= i < |s| ==> IsSpace(s[i])
    decreases |s|
  {
    if s != [] && IsSpace(s[|s| - 1]) then TrimEnd(s[..|s| - 1]) else s
  }

  /** `s.trim()`. */
  function Trim(s: string): (r: string)
    ensures r != [] ==> !IsSpace(r[0]) && !IsSpace(r[|r| - 1])
  {
    TrimEnd(TrimStart(s))
  }

  /** `s.trim() === ''`: the text is white space throughout. */
  function IsBlank(s: string): (blank: bool)
    ensures s == "" ==> blank
  {
    forall i :: 0 <= i < |s| ==> IsSpace(s[i])
  }

  /** A text is blank exactly when `trim` leaves nothing of it. */
  lemma BlankMeansTrimmedEmpty(s: string)
    ensures IsBlank(s) <==> Trim(s) == ""
  {
  }

  /** `sub` occurs in `s` starting at index `i`. */
  predicate OccursAt(s: string, sub: string, i: int)
  {
    0 <= i && i + |sub| <= |s| && s[i..i + |sub|] == sub
  }

  /** `s.includes(sub)`. */
  predicate Contains(s: string, sub: string)
  {
    exists i | 0 <= i <= |s| - |sub| :: OccursAt(s, sub, i)
  }

  /** `field.toLowerCase().includes(term.toLowerCase())`, the search rule of every list view. */
  function MatchesIgnoringCase(field: string, term: string): (found: bool)
    ensures term == "" ==> found
    ensures found ==> |term| <= |field|
  {
    assert term == "" ==> OccursAt(Lower(field), Lower(term), 0);
    Contains(Lower(field), Lower(term))
  }

  /** Every string includes the empty string, so an empty search term matches everything. */
  lemma EmptyTermMatches(field: string)
    ensures MatchesIgnoringCase(field, "")
  {
    assert OccursAt(Lower(field), Lower(""), 0);
  }

  /** `s.split(sep)` for a one-character separator. */
  function Split(s: string, sep: char): (parts: seq<string>)
    ensures |parts| >= 1
    ensures forall i :: 0 <= i < |parts| ==> sep !in parts[i]
    decreases |s|
  {
    if sep in s then
      var k := FirstIndex(s, sep);
      [s[..k]] + Split(s[k + 1..], sep)
    else [s]
  }

  /** `parts.join(sep)`. */
  function Join(parts: seq<string>, sep: string): (joined: string)
    ensures parts != [] ==> parts[0] <= joined
    decreases |parts|
  {
    if parts == [] then ""
    else if |parts| == 1 then parts[0]
    else parts[0] + sep + Join(parts[1..], sep)
  }

  /** Joining the pieces of a split with the same separator gives the text back. */
  lemma {:induction false} JoinSplit(s: string, sep: char)
    ensures Join(Split(s, sep), [sep]) == s
    decreases |s|
  {
    if sep in s {
      var k := FirstIndex(s, sep);
      var rest := Split(s[k + 1..], sep);
      JoinSplit(s[k + 1..], sep);
      assert ([s[..k]] + rest)[1..] == rest;
      assert s == s[..k] + [sep] + s[k + 1..];
    }
  }

  /** Splitting words joined by a separator none of them holds gives the
      words back. */
  lemma {:induction false} SplitJoin(ws: seq<string>, sep: char)
    requires |ws| >= 1 && forall j :: 0 <= j < |ws| ==> sep !in ws[j]
    ensures Split(Join(ws, [sep]), sep) == ws
    decreases |ws|
  {
    if |ws| > 1 {
      var rest := Join(ws[1..], [sep]);
      var s := ws[0] + [sep] + rest;
      assert Join(ws, [sep]) == s;
      SplitAtFirst(ws[0], sep, rest);
      SplitJoin(ws[1..], sep);
      assert ws == [ws[0]] + ws[1..];
    }
  }

  /** A split at the first separator: the text before it, then the split of the rest. */
  lemma SplitAtFirst(w: string, sep: char, rest: string)
    requires sep !in w
    ensures Split(w + [sep] + rest, sep) == [w] + Split(rest, sep)
  {
    var s := w + [sep] + rest;
    assert s[|w|] == sep;
    assert forall i :: 0 <= i < |w| ==> s[i] == w[i];
    var k := FirstIndex(s, sep);
    assert k == |w|;
    assert s[..k] == w && s[k + 1..] == rest;
  }

  /** Adding one more piece to a `join('')` appends it. */
  lemma {:induction false} JoinAppendEmptySep(parts: seq<string>, x: string)
    ensures Join(parts + [x], "") == Join(parts, "") + x
    decreases |parts|
  {
    if |parts| >= 1 {
      JoinAppendEmptySep(parts[1..], x);
      assert (parts + [x])[1..] == parts[1..] + [x];
    }
  }

  /** `s.replace(new RegExp(pat, 'g'), v)` for a pattern that matches only itself:
      the occurrences of `pat` found scanning left to right, without overlap,
      are replaced by `v`. */
  function ReplaceAll(s: string, pat: string, v: string): (r: string)
    requires pat != []
    ensures v == pat ==> r == s
    decreases |s|
  {
    if s == [] then []
    else if pat <= s then v + ReplaceAll(s[|pat|..], pat, v)
    else [s[0]] + ReplaceAll(s[1..], pat, v)
  }

  /** `s.split(pat)`: the text between the occurrences of `pat`, scanning left to right. */
  function SplitOn(s: string, pat: string): (parts: seq<string>)
    requires pat != []
    ensures |parts| >= 1
    decreases |s|
  {
    if s == [] then [""]
    else if pat <= s then [""] + SplitOn(s[|pat|..], pat)
    else
      var r := SplitOn(s[1..], pat);
      [[s[0]] + r[0]] + r[1..]
  }

  lemma JoinConsFirst(c: char, r: seq<string>, sep: string)
    requires |r| >= 1
    ensures Join([[c] + r[0]] + r[1..], sep) == [c] + Join(r, sep)
  {
    var parts := [[c] + r[0]] + r[1..];
    assert parts[1..] == r[1..];
  }

  /** Joining the pieces of `s.split(pat)` with `pat` restores `s`. */
  lemma {:induction false} JoinSplitOn(s: string, pat: string)
    requires pat != []
    ensures Join(SplitOn(s, pat), pat) == s
    decreases |s|
  {
    if s == [] {
    } else if pat <= s {
      JoinSplitOn(s[|pat|..], pat);
      JoinAfterPattern(s, pat, SplitOn(s[|pat|..], pat));
    } else {
      JoinSplitOn(s[1..], pat);
      JoinAfterChar(s, pat, SplitOn(s[1..], pat));
    }
  }

  /** The step of `JoinSplitOn` where `s` starts with the pattern. */
  lemma JoinAfterPattern(s: string, pat: string, r: seq<string>)
    requires pat <= s && |r| >= 1 && Join(r, pat) == s[|pat|..]
    ensures Join([""] + r, pat) == s
  {
    JoinConsEmpty(r, pat);
    PrefixThenRest(pat, s);
  }

  /** An empty first piece contributes only the separator after it. */
  lemma JoinConsEmpty(r: seq<string>, sep: string)
    requires |r| >= 1
    ensures Join([""] + r, sep) == sep + Join(r, sep)
  {
    assert ([""] + r)[1..] == r;
    assert "" + sep == sep;
  }

  lemma PrefixThenRest(p: string, s: string)
    requires p <= s
    ensures s == p + s[|p|..]
  {
    assert s == s[..|p|] + s[|p|..];
  }

  /** The step of `JoinSplitOn` where `s` starts with a character outside the pattern. */
  lemma JoinAfterChar(s: string, pat: string, r: seq<string>)
    requires s != [] && |r| >= 1 && Join(r, pat) == s[1..]
    ensures Join([[s[0]] + r[0]] + r[1..], pat) == s
  {
    JoinConsFirst(s[0], r, pat);
    assert s == [s[0]] + s[1..];
  }

  /** The first piece of `s.split(pat)` is a prefix of `s`. */
  lemma {:induction false} SplitOnFirstIsPrefix(s: string, pat: string)
    requires pat != []
    ensures SplitOn(s, pat)[0] <= s
    decreases |s|
  {
    if s != [] && !(pat <= s) {
      SplitOnFirstIsPrefix(s[1..], pat);
      assert s == [s[0]] + s[1..];
    }
  }

  /** A character put in front of pattern-free text creates no occurrence,
      when the result begins a text that does not start with the pattern. */
  lemma PrependKeepsAbsent(c: char, t: string, s: string, pat: string)
    requires pat != [] && !Contains(t, pat) && [c] + t <= s && !(pat <= s)
    ensures !Contains([c] + t, pat)
  {
    var u := [c] + t;
    if Contains(u, pat) {
      var i :| 0 <= i <= |u| - |pat| && OccursAt(u, pat, i);
      if i > 0 {
        assert u[i..i + |pat|] == t[i - 1..i - 1 + |pat|];
        assert OccursAt(t, pat, i - 1);
      }
    }
  }

  /** No piece of `s.split(pat)` contains `pat`. */
  lemma {:induction false} SplitOnPiecesExcludePattern(s: string, pat: string)
    requires pat != []
    ensures forall i :: 0 <= i < |SplitOn(s, pat)| ==> !Contains(SplitOn(s, pat)[i], pat)
    decreases |s|
  {
    var parts := SplitOn(s, pat);
    if s == [] {
    } else if pat <= s {
      SplitOnPiecesExcludePattern(s[|pat|..], pat);
      var r := SplitOn(s[|pat|..], pat);
      assert parts == [""] + r;
      forall i | 0 <= i < |parts| ensures !Contains(parts[i], pat) {
        if i > 0 { assert parts[i] == r[i - 1]; }
      }
    } else {
      SplitOnPiecesExcludePattern(s[1..], pat);
      SplitOnFirstIsPrefix(s[1..], pat);
      var r := SplitOn(s[1..], pat);
      var first := [s[0]] + r[0];
      assert parts == [first] + r[1..];
      assert first <= s by { assert s == [s[0]] + s[1..]; }
      PrependKeepsAbsent(s[0], r[0], s, pat);
      forall i | 0 <= i < |parts| ensures !Contains(parts[i], pat) {
        if i > 0 { assert parts[i] == r[i]; }
      }
    }
  }

  /** The global replace is `split` followed by `join`: every piece between two
      occurrences is copied and every occurrence becomes `v`. */
  lemma {:induction false} ReplaceAllIsSplitJoin(s: string, pat: string, v: string)
    requires pat != []
    ensures ReplaceAll(s, pat, v) == Join(SplitOn(s, pat), v)
    decreases |s|
  {
    if s == [] {
    } else if pat <= s {
      ReplaceAllIsSplitJoin(s[|pat|..], pat, v);
      var r := SplitOn(s[|pat|..], pat);
      assert ([""] + r)[1..] == r;
    } else {
      ReplaceAllIsSplitJoin(s[1..], pat, v);
      JoinConsFirst(s[0], SplitOn(s[1..], pat), v);
    }
  }

  /** Text without the pattern comes out of the replace unchanged. */
  lemma {:induction false} ReplaceAllAbsent(s: string, pat: string, v: string)
    requires pat != [] && !Contains(s, pat)
    ensures ReplaceAll(s, pat, v) == s
    decreases |s|
  {
    if s != [] {
      if pat <= s {
        assert OccursAt(s, pat, 0);
      }
      assert !Contains(s[1..], pat) by {
        if Contains(s[1..], pat) {
          var i :| 0 <= i <= |s[1..]| - |pat| && OccursAt(s[1..], pat, i);
          assert s[i + 1..i + 1 + |pat|] == s[1..][i..i + |pat|];
          assert OccursAt(s, pat, i + 1);
        }
      }
      ReplaceAllAbsent(s[1..], pat, v);
      assert s == [s[0]] + s[1..];
    }
  }

  /** Some occurrence of `pat` in `a + b` begins inside `a` and ends inside `b`. */
  predicate Straddles(a: string, b: string, pat: string)
  {
    exists i | 0 <= i < |a| :: |a| < i + |pat| && OccursAt(a + b, pat, i)
  }

  /** When no occurrence crosses the boundary, the replace works on each side separately. */
  lemma {:induction false} ReplaceAllConcat(a: string, b: string, pat: string, v: string)
    requires pat != [] && !Straddles(a, b, pat)
    ensures ReplaceAll(a + b, pat, v) == ReplaceAll(a, pat, v) + ReplaceAll(b, pat, v)
    decreases |a|
  {
    if a == [] {
      assert a + b == b;
    } else if pat <= a + b {
      HeadWithinFirst(a, b, pat);
      NoStraddleAfterDrop(a, b, pat, |pat|);
      ReplaceAllConcat(a[|pat|..], b, pat, v);
      ConcatAfterPattern(a, b, pat, v);
    } else {
      NoStraddleAfterDrop(a, b, pat, 1);
      ReplaceAllConcat(a[1..], b, pat, v);
      ConcatAfterChar(a, b, pat, v);
    }
  }

  /** An occurrence at the start of `a + b` that does not straddle lies within `a`. */
  lemma HeadWithinFirst(a: string, b: string, pat: string)
    requires a != [] && pat <= a + b && !Straddles(a, b, pat)
    ensures |pat| <= |a| && pat <= a
  {
    assert OccursAt(a + b, pat, 0);
    assert (a + b)[..|pat|] == a[..|pat|];
  }

  /** Dropping the first `d` characters of `a` creates no straddling occurrence. */
  lemma NoStraddleAfterDrop(a: string, b: string, pat: string, d: nat)
    requires 1 <= d <= |a| && !Straddles(a, b, pat)
    ensures !Straddles(a[d..], b, pat)
  {
    var a' := a[d..];
    forall i | 0 <= i < |a'| && |a'| < i + |pat|
      ensures !OccursAt(a' + b, pat, i)
    {
      assert !OccursAt(a + b, pat, i + d);
      if i + |pat| <= |a' + b| {
        assert (a + b)[i + d..i + d + |pat|] == (a' + b)[i..i + |pat|];
      }
    }
  }

  /** The step of `ReplaceAllConcat` where `a` starts with the pattern. */
  lemma ConcatAfterPattern(a: string, b: string, pat: string, v: string)
    requires pat != [] && pat <= a
    requires ReplaceAll(a[|pat|..] + b, pat, v) == ReplaceAll(a[|pat|..], pat, v) + ReplaceAll(b, pat, v)
    ensures ReplaceAll(a + b, pat, v) == ReplaceAll(a, pat, v) + ReplaceAll(b, pat, v)
  {
    PrefixOfConcat(pat, a, b);
    assert (a + b)[|pat|..] == a[|pat|..] + b;
    ReplaceSkipsHead(a + b, pat, v);
    ReplaceSkipsHead(a, pat, v);
    Assoc(v, ReplaceAll(a[|pat|..], pat, v), ReplaceAll(b, pat, v));
  }

  lemma PrefixOfConcat(p: string, a: string, b: string)
    requires p <= a
    ensures p <= a + b
  {
    assert (a + b)[..|p|] == a[..|p|];
  }

  lemma NotPrefixOfHead(p: string, a: string, b: string)
    requires !(p <= a + b)
    ensures !(p <= a)
  {
    if |p| <= |a| {
      assert (a + b)[..|p|] == a[..|p|];
    }
  }

  lemma Assoc(x: string, y: string, z: string)
    ensures x + (y + z) == (x + y) + z
  {
  }

  /** An occurrence at the head is replaced and the scan goes on after it. */
  lemma ReplaceSkipsHead(u: string, pat: string, v: string)
    requires pat != [] && pat <= u
    ensures ReplaceAll(u, pat, v) == v + ReplaceAll(u[|pat|..], pat, v)
  {
  }

  /** A head that starts no occurrence is copied. */
  lemma ReplaceCopiesHead(u: string, pat: string, v: string)
    requires pat != [] && u != [] && !(pat <= u)
    ensures ReplaceAll(u, pat, v) == [u[0]] + ReplaceAll(u[1..], pat, v)
  {
  }

  /** The step of `ReplaceAllConcat` where `a + b` does not start with the pattern. */
  lemma ConcatAfterChar(a: string, b: string, pat: string, v: string)
    requires pat != [] && a != [] && !(pat <= a + b)
    requires ReplaceAll(a[1..] + b, pat, v) == ReplaceAll(a[1..], pat, v) + ReplaceAll(b, pat, v)
    ensures ReplaceAll(a + b, pat, v) == ReplaceAll(a, pat, v) + ReplaceAll(b, pat, v)
  {
    assert (a + b)[1..] == a[1..] + b;
    assert (a + b)[0] == a[0];
    NotPrefixOfHead(pat, a, b);
    ReplaceCopiesHead(a + b, pat, v);
    ReplaceCopiesHead(a, pat, v);
    Assoc([a[0]], ReplaceAll(a[1..], pat, v), ReplaceAll(b, pat, v));
  }

  function DigitChar(d: nat): (c: char)
    requires d < 10
    ensures IsDigit(c)
  {
    ('0' as int + d) as char
  }

  /** `String(n)` for a natural number: its decimal digits, most significant first. */
  function DecimalString(n: nat): (s: string)
    ensures |s| >= 1
    ensures forall i :: 0 <= i < |s| ==> IsDigit(s[i])
    decreases n
  {
    if n < 10 then [DigitChar(n)] else DecimalString(n / 10) + [DigitChar(n % 10)]
  }

  /** The number a string of decimal digits denotes. */
  function DecimalValue(s: string): nat
    requires forall i :: 0 <= i < |s| ==> IsDigit(s[i])
    decreases |s|
  {
    if s == [] then 0
    else
      assert IsDigit(s[|s| - 1]);
      DecimalValue(s[..|s| - 1]) * 10 + (s[|s| - 1] as int - '0' as int)
  }

  /** Reading back the decimal rendering gives the number. */
  lemma {:induction false} DecimalRoundTrip(n: nat)
    ensures DecimalValue(DecimalString(n)) == n
    decreases n
  {
    if n >= 10 {
      DecimalRoundTrip(n / 10);
      var s := DecimalString(n);
      assert s[..|s| - 1] == DecimalString(n / 10);
    }
  }

  /** Different numbers render differently. */
  lemma DecimalStringInjective(m: nat, n: nat)
    requires DecimalString(m) == DecimalString(n)
    ensures m == n
  {
    DecimalRoundTrip(m);
    DecimalRoundTrip(n);
  }
}
