/**
 * The template editor's placeholder handling
 * (src/components/features/TemplateEditor.tsx).
 *
 * Placeholders are found with the global expression `/\{\{([^}]+)\}\}/g`.
 * At a position starting with `{{`, the class `[^}]+` swallows every
 * character up to the first `}`; the match succeeds exactly when at least one
 * character was swallowed and the `}` found is followed by another `}`.
 * Otherwise the search moves on by one character; after a match it resumes
 * just past the closing `}}` (the expression's `lastIndex`). The scanner
 * below states that rule once, on positions in the whole content, and both
 * the parameter list and the live preview are defined from it.
 */
module TemplateEditor {
  import opened Common
  import opened Text
  import opened MockData

  /** Index of the first `}` at or after `k`, or `|s|` when there is none
      (`CloseBraceIsFirst`). */
  function CloseBrace(s: string, k: nat): (j: nat)
    requires k <= |s|
    ensures k <= j <= |s|
    decreases |s| - k
  {
    if k == |s| || s[k] == '}' then k else CloseBrace(s, k + 1)
  }

  /** `CloseBrace` stops at a `}` and passes over none. */
  lemma {:induction false} CloseBraceIsFirst(s: string, k: nat)
    requires k <= |s|
    ensures CloseBrace(s, k) < |s| ==> s[CloseBrace(s, k)] == '}'
    ensures forall m :: k <= m < CloseBrace(s, k) ==> s[m] != '}'
    decreases |s| - k
  {
    if k < |s| && s[k] != '}' {
      CloseBraceIsFirst(s, k + 1);
    }
  }

  /** A `}` with none before it from `k` on is the one `CloseBrace` finds. */
  lemma CloseBraceAt(s: string, k: nat, j: nat)
    requires k <= j < |s| && s[j] == '}'
    requires forall m :: k <= m < j ==> s[m] != '}'
    ensures CloseBrace(s, k) == j
  {
    CloseBraceIsFirst(s, k);
  }

  /** A placeholder token starts at `p` and its closing `}}` at `j`: `{{`,
      then one or more characters other than `}`, then `}}`. */
  predicate IsTokenAt(s: string, p: int, j: int)
  {
    0 <= p && p + 2 < j && j + 1 < |s| && s[p] == '{' && s[p + 1] == '{'
    && s[j] == '}' && s[j + 1] == '}'
    && forall m :: p + 2 <= m < j ==> s[m] != '}'
  }

  /** The expression tried at position `p`: the index of the closing `}}`
      when a token starts there (`MatchAtIsToken`). */
  function MatchAt(s: string, p: nat): (r: Option<nat>)
    requires p <= |s|
    ensures r.Some? ==> p + 2 < r.value && r.value + 2 <= |s|
  {
    if p + 2 <= |s| && s[p] == '{' && s[p + 1] == '{' then
      var j := CloseBrace(s, p + 2);
      if j > p + 2 && j + 1 < |s| && s[j + 1] == '}' then Some(j) else None
    else None
  }

  /** The expression matches at `p` exactly when a token starts there, and
      then it reports that token's close. */
  lemma MatchAtIsToken(s: string, p: nat)
    requires p <= |s|
    ensures MatchAt(s, p).Some? ==> IsTokenAt(s, p, MatchAt(s, p).value)
    ensures MatchAt(s, p).None? ==> forall j :: !IsTokenAt(s, p, j)
  {
    if p + 2 <= |s| {
      CloseBraceIsFirst(s, p + 2);
    }
  }

  /** A match found by `exec`: the token occupies `start .. close + 2`. */
  datatype Match = Match(start: nat, close: nat)

  /** `regex.exec` with `lastIndex == from`: the first token starting at or
      after `from` (`NextMatchIsToken`, `NextMatchIsLeftmost`). */
  function NextMatch(s: string, from: nat): (r: Option<Match>)
    requires from <= |s|
    ensures r.Some? ==> from <= r.value.start && r.value.start + 2 < r.value.close && r.value.close + 2 <= |s|
    decreases |s| - from
  {
    if from == |s| then None
    else match MatchAt(s, from)
      case Some(j) => Some(Match(from, j))
      case None => NextMatch(s, from + 1)
  }

  /** What `exec` reports is a token. */
  lemma {:induction false} NextMatchIsToken(s: string, from: nat)
    requires from <= |s|
    ensures NextMatch(s, from).Some? ==> IsTokenAt(s, NextMatch(s, from).value.start, NextMatch(s, from).value.close)
    decreases |s| - from
  {
    if from < |s| {
      MatchAtIsToken(s, from);
      if MatchAt(s, from).None? {
        NextMatchIsToken(s, from + 1);
      }
    }
  }

  /** The match `exec` reports is the leftmost one: no token starts between
      `from` and it, and when there is none, no token starts after `from`. */
  lemma {:induction false} NextMatchIsLeftmost(s: string, from: nat)
    requires from <= |s|
    ensures NextMatch(s, from).Some? ==>
              forall p :: from <= p < NextMatch(s, from).value.start ==> MatchAt(s, p).None?
    ensures NextMatch(s, from).None? ==> forall p :: from <= p <= |s| ==> MatchAt(s, p).None?
    decreases |s| - from
  {
    if from < |s| && MatchAt(s, from).None? {
      NextMatchIsLeftmost(s, from + 1);
    }
  }


  /** The token `exec` reports, spelled out: `{{` at its start, `}}` at its
      close, and a non-empty name without `}` between them. */
  lemma {:induction false} MatchDelimiters(s: string, from: nat, m: Match)
    requires from <= |s| && NextMatch(s, from) == Some(m)
    ensures from <= m.start && m.start + 2 < m.close && m.close + 2 <= |s|
    ensures s[m.start..m.start + 2] == "{{" && s[m.close..m.close + 2] == "}}"
    ensures s[m.start + 2..m.close] != [] && '}' !in s[m.start + 2..m.close]
  {
    NextMatchIsToken(s, from);
    var name := s[m.start + 2..m.close];
    forall i | 0 <= i < |name| ensures name[i] != '}' {
      assert name[i] == s[m.start + 2 + i];
    }
  }

  /** The full match is `{{`, the captured name and `}}`. */
  lemma {:induction false} FullMatchSplit(c: string, index: nat, close: nat)
    requires index + 2 <= close && close + 2 <= |c|
    requires c[index..index + 2] == "{{" && c[close..close + 2] == "}}"
    ensures c[index..close + 2] == "{{" + c[index + 2..close] + "}}"
  {
    assert c[index..close + 2] == c[index..index + 2] + c[index + 2..close] + c[close..close + 2];
  }

  // ---------------------------------------------------------------------------
  // What the scan yields

  /** `content.match(regex)` from `from` on: the text of every full match, in order. */
  function FullMatches(s: string, from: nat): (texts: seq<string>)
    requires from <= |s|
    ensures 5 * |texts| <= |s| - from
    decreases |s| - from
  {
    match NextMatch(s, from)
    case None => []
    case Some(m) => [s[m.start..m.close + 2]] + FullMatches(s, m.close + 2)
  }

  /** The captured group of every match from `from` on, in scan order and with repetitions. */
  function NamesFrom(s: string, from: nat): (names: seq<string>)
    requires from <= |s|
    ensures 5 * |names| <= |s| - from
    decreases |s| - from
  {
    match NextMatch(s, from)
    case None => []
    case Some(m) => [s[m.start + 2..m.close]] + NamesFrom(s, m.close + 2)
  }

  /** The captured names of the whole content. */
  function ContentNames(content: string): (names: seq<string>)
    ensures 5 * |names| <= |content|
  {
    NamesFrom(content, 0)
  }

  /** `testValues[paramName] || fullMatch`: a non-empty test value, else the token itself. */
  function Shown(name: string, fullMatch: string, values: map<string, string>): (shown: string)
    ensures fullMatch != "" ==> shown != ""
  {
    if name in values && values[name] != "" then values[name] else fullMatch
  }

  /** What the preview shows for the content from `from` on: the text
      between tokens copied, each token replaced by what `Shown` gives. */
  function PreviewFrom(s: string, from: nat, values: map<string, string>): string
    requires from <= |s|
    decreases |s| - from
  {
    match NextMatch(s, from)
    case None => s[from..]
    case Some(m) =>
      s[from..m.start] + Shown(s[m.start + 2..m.close], s[m.start..m.close + 2], values)
      + PreviewFrom(s, m.close + 2, values)
  }

  /** What the live preview shows for `content` with the given test values. */
  function Preview(content: string, values: map<string, string>): (shown: string)
    ensures ContentNames(content) == [] ==> shown == content
  {
    PreviewFrom(content, 0, values)
  }

  /** Each text is the name at the same place between `{{` and `}}`. */
  predicate Spelled(texts: seq<string>, names: seq<string>)
  {
    |texts| == |names| && forall i :: 0 <= i < |texts| ==> texts[i] == "{{" + names[i] + "}}"
  }

  /** Each full match is its captured name between `{{` and `}}`. */
  lemma {:induction false} FullMatchesSpellNames(s: string, from: nat)
    requires from <= |s|
    ensures Spelled(FullMatches(s, from), NamesFrom(s, from))
    decreases |s| - from
  {
    match NextMatch(s, from)
    case None =>
    case Some(m) =>
      MatchDelimiters(s, from, m);
      FullMatchSplit(s, m.start, m.close);
      FullMatchesSpellNames(s, m.close + 2);
      NamesStep(s, from, m);
      FullMatchesStep(s, from, m);
      SpelledCons(s[m.start..m.close + 2], s[m.start + 2..m.close], FullMatches(s, m.close + 2), NamesFrom(s, m.close + 2));
  }

  /** One match of the scan: its full text, then the full matches after it. */
  lemma {:induction false} FullMatchesStep(s: string, from: nat, m: Match)
    requires from <= |s| && NextMatch(s, from) == Some(m)
    ensures m.close + 2 <= |s|
    ensures FullMatches(s, from) == [s[m.start..m.close + 2]] + FullMatches(s, m.close + 2)
  {
  }

  /** A spelled-out token in front of spelled-out lists keeps them spelled out. */
  lemma SpelledCons(t: string, n: string, texts: seq<string>, names: seq<string>)
    requires t == "{{" + n + "}}" && Spelled(texts, names)
    ensures Spelled([t] + texts, [n] + names)
  {
    forall i | 0 < i < 1 + |texts|
      ensures ([t] + texts)[i] == "{{" + ([n] + names)[i] + "}}"
    {
      assert ([t] + texts)[i] == texts[i - 1] && ([n] + names)[i] == names[i - 1];
    }
  }

  /** Replacing nothing gives the text back: the preview with no test values
      is the content itself. */
  lemma {:induction false} PreviewRoundTrip(s: string, from: nat)
    requires from <= |s|
    ensures PreviewFrom(s, from, map[]) == s[from..]
    decreases |s| - from
  {
    match NextMatch(s, from)
    case None =>
      PreviewEnd(s, from, map[]);
    case Some(m) =>
      PreviewRoundTrip(s, m.close + 2);
      RoundTripStep(s, from, m);
  }

  /** One match of the round trip: the token comes back as it was written. */
  lemma RoundTripStep(s: string, from: nat, m: Match)
    requires from <= |s| && NextMatch(s, from) == Some(m)
    requires m.close + 2 <= |s| && PreviewFrom(s, m.close + 2, map[]) == s[m.close + 2..]
    ensures PreviewFrom(s, from, map[]) == s[from..]
  {
    PreviewStep(s, from, m, map[]);
    RoundTripPieces(s, from, m);
  }

  /** The text from `from` on, cut around the match `m`, with the token as it
      shows without test values. */
  lemma RoundTripPieces(s: string, from: nat, m: Match)
    requires from <= m.start && m.start + 2 <= m.close && m.close + 2 <= |s|
    ensures s[from..] == s[from..m.start] + Shown(s[m.start + 2..m.close], s[m.start..m.close + 2], map[]) + s[m.close + 2..]
  {
    ShownWithoutValues(s[m.start + 2..m.close], s[m.start..m.close + 2]);
    ThreeSlices(s, from, m.start, m.close + 2);
  }

  /** With no test values a token shows itself. */
  lemma ShownWithoutValues(name: string, fullMatch: string)
    ensures Shown(name, fullMatch, map[]) == fullMatch
  {
  }

  /** Every captured name is non-empty and has no `}` in it. */
  lemma {:induction false} NamesWellFormed(s: string, from: nat)
    requires from <= |s|
    ensures forall i :: 0 <= i < |NamesFrom(s, from)| ==>
              NamesFrom(s, from)[i] != [] && '}' !in NamesFrom(s, from)[i]
    decreases |s| - from
  {
    match NextMatch(s, from)
    case None =>
    case Some(m) =>
      MatchDelimiters(s, from, m);
      NamesWellFormed(s, m.close + 2);
      var names := NamesFrom(s, from);
      forall i | 0 <= i < |names| ensures names[i] != [] && '}' !in names[i] {
        if i > 0 {
          assert names[i] == NamesFrom(s, m.close + 2)[i - 1];
        }
      }
  }

  /** The parameter list the editor shows: the captured names, each once, in
      the order first met. (This is the intended reading; see
      `ExtractParamsAsWritten` for what the code computes.) */
  function ExtractParams(content: string): (params: seq<string>)
    ensures NoDuplicates(params)
    ensures forall i :: 0 <= i < |params| ==> params[i] != [] && '}' !in params[i]
    ensures forall n :: n in params <==> n in ContentNames(content)
  {
    NamesWellFormed(content, 0);
    Dedupe(ContentNames(content))
  }

  /** Parameters are listed in the order of their first token. */
  lemma {:induction false} ParamsInFirstSeenOrder(content: string)
    ensures forall i, j :: 0 <= i < j < |ExtractParams(content)| ==>
              FirstIndex(ContentNames(content), ExtractParams(content)[i])
              < FirstIndex(ContentNames(content), ExtractParams(content)[j])
  {
    DedupeKeepsFirstSeenOrder(ContentNames(content));
  }

  /** The test value that takes effect for a name, if any. */
  function Effective(values: map<string, string>, n: string): Option<string>
  {
    if n in values && values[n] != "" then Some(values[n]) else None
  }

  /** The preview reads the test values only through the captured names. */
  lemma {:induction false} PreviewDependsOnNames(s: string, from: nat, v1: map<string, string>, v2: map<string, string>)
    requires from <= |s|
    requires forall n :: n in NamesFrom(s, from) ==> Effective(v1, n) == Effective(v2, n)
    ensures PreviewFrom(s, from, v1) == PreviewFrom(s, from, v2)
    decreases |s| - from
  {
    match NextMatch(s, from)
    case None =>
      PreviewEnd(s, from, v1);
      PreviewEnd(s, from, v2);
    case Some(m) =>
      NamesAgreeAfter(s, from, m, v1, v2);
      PreviewDependsOnNames(s, m.close + 2, v1, v2);
      DependsStep(s, from, m, v1, v2);
  }

  /** The values that agree on every name from `from` on agree on the
      matched name and on every name after the match. */
  lemma NamesAgreeAfter(s: string, from: nat, m: Match, v1: map<string, string>, v2: map<string, string>)
    requires from <= |s| && NextMatch(s, from) == Some(m)
    requires forall n :: n in NamesFrom(s, from) ==> Effective(v1, n) == Effective(v2, n)
    ensures m.close + 2 <= |s|
    ensures Effective(v1, s[m.start + 2..m.close]) == Effective(v2, s[m.start + 2..m.close])
    ensures forall n :: n in NamesFrom(s, m.close + 2) ==> Effective(v1, n) == Effective(v2, n)
  {
    NamesStep(s, from, m);
    var name := s[m.start + 2..m.close];
    var rest := NamesFrom(s, m.close + 2);
    assert name in [name] + rest;
    forall n | n in rest ensures Effective(v1, n) == Effective(v2, n) {
      assert n in [name] + rest;
    }
  }

  /** One match: equal previews after it and an equally shown token give
      equal previews from `from`. */
  lemma DependsStep(s: string, from: nat, m: Match, v1: map<string, string>, v2: map<string, string>)
    requires from <= |s| && NextMatch(s, from) == Some(m) && m.close + 2 <= |s|
    requires Effective(v1, s[m.start + 2..m.close]) == Effective(v2, s[m.start + 2..m.close])
    requires PreviewFrom(s, m.close + 2, v1) == PreviewFrom(s, m.close + 2, v2)
    ensures PreviewFrom(s, from, v1) == PreviewFrom(s, from, v2)
  {
    ShownAgrees(s[m.start + 2..m.close], s[m.start..m.close + 2], v1, v2);
    PreviewStep(s, from, m, v1);
    PreviewStep(s, from, m, v2);
  }

  /** Two sets of values with the same effective value for a name show the same thing for it. */
  lemma ShownAgrees(name: string, fullMatch: string, v1: map<string, string>, v2: map<string, string>)
    requires Effective(v1, name) == Effective(v2, name)
    ensures Shown(name, fullMatch, v1) == Shown(name, fullMatch, v2)
  {
  }

  /** The preview consults the test values of exactly the listed parameters:
      two sets of values that agree on them give the same preview. */
  lemma {:induction false} PreviewReadsOnlyParams(content: string, v1: map<string, string>, v2: map<string, string>)
    requires forall n :: n in ExtractParams(content) ==> Effective(v1, n) == Effective(v2, n)
    ensures Preview(content, v1) == Preview(content, v2)
  {
    PreviewDependsOnNames(content, 0, v1, v2);
  }

  /** With no usable test value for any parameter the preview is the content
      itself, tokens included. */
  lemma {:induction false} PreviewUnfilled(content: string, values: map<string, string>)
    requires forall n :: n in ExtractParams(content) ==> Effective(values, n) == None
    ensures Preview(content, values) == content
  {
    PreviewReadsOnlyParams(content, values, map[]);
    PreviewRoundTrip(content, 0);
  }

  /** Content with no token has no parameters and previews as itself. */
  lemma {:induction false} NoTokenNoParams(content: string, values: map<string, string>)
    requires NextMatch(content, 0).None?
    ensures ExtractParams(content) == []
    ensures Preview(content, values) == content
  {
    assert ContentNames(content) == [];
    assert content[0..] == content;
  }

  /** Each test value of the list `params`, all empty: what loading a template sets. */
  function EmptyValues(params: seq<string>): (values: map<string, string>)
    ensures forall n :: n in values <==> n in params
    ensures forall n :: n in values ==> values[n] == ""
  {
    map n | n in params :: ""
  }

  /** Right after loading, every test value is empty and the preview shows the
      content unchanged. */
  lemma {:induction false} FreshValuesShowContent(content: string)
    ensures Preview(content, EmptyValues(ExtractParams(content))) == content
  {
    PreviewUnfilled(content, EmptyValues(ExtractParams(content)));
  }

  // ---------------------------------------------------------------------------
  // Cutting given texts

  /** Text without `{` holds no token start, so the scan passes over it. */
  lemma {:induction false} PlainSkip(s: string, p: nat, q: nat)
    requires p <= q <= |s| && PlainBetween(s, p, q)
    ensures NextMatch(s, p) == NextMatch(s, q)
    decreases q - p
  {
    if p < q {
      PlainSkip(s, p + 1, q);
    }
  }

  /** No `{` at the positions from `p` up to `q`. */
  predicate PlainBetween(s: string, p: nat, q: nat)
    requires p <= q <= |s|
  {
    forall i :: p <= i < q ==> s[i] != '{'
  }

  /** The positions of a slice without `{` hold no `{`. */
  lemma PlainSlice(s: string, p: nat, q: nat, t: string)
    requires p <= q <= |s| && s[p..q] == t && '{' !in t
    ensures PlainBetween(s, p, q)
  {
    forall i | p <= i < q
      ensures s[i] != '{'
    {
      assert s[i] == t[i - p] && t[i - p] in t;
    }
  }

  /** A match moved `k` characters to the right. */
  function Shift(r: Option<Match>, k: nat): (shifted: Option<Match>)
    ensures shifted.Some? <==> r.Some?
    ensures shifted.Some? ==> shifted.value.start == r.value.start + k && shifted.value.close == r.value.close + k
  {
    match r
    case None => None
    case Some(m) => Some(Match(m.start + k, m.close + k))
  }

  lemma {:induction false} CloseBraceShift(x: string, y: string, k: nat)
    requires k <= |y|
    ensures CloseBrace(x + y, |x| + k) == |x| + CloseBrace(y, k)
    decreases |y| - k
  {
    if k < |y| {
      assert (x + y)[|x| + k] == y[k];
      if y[k] != '}' {
        CloseBraceShift(x, y, k + 1);
      }
    }
  }

  lemma {:induction false} MatchAtShift(x: string, y: string, k: nat)
    requires k <= |y|
    ensures MatchAt(x + y, |x| + k) == if MatchAt(y, k).Some? then Some(|x| + MatchAt(y, k).value) else None
  {
    var s := x + y;
    if k + 2 <= |y| {
      assert s[|x| + k] == y[k] && s[|x| + k + 1] == y[k + 1];
      CloseBraceShift(x, y, k + 2);
      var j := CloseBrace(y, k + 2);
      if j + 1 < |y| {
        assert s[|x| + j + 1] == y[j + 1];
      }
    }
  }

  /** The scan from a position only reads what lies after it: text put in
      front shifts the match and changes nothing else. */
  lemma {:induction false} NextMatchShift(x: string, y: string, k: nat)
    requires k <= |y|
    ensures NextMatch(x + y, |x| + k) == Shift(NextMatch(y, k), |x|)
    decreases |y| - k
  {
    if k < |y| {
      MatchAtShift(x, y, k);
      if MatchAt(y, k).None? {
        NextMatchShift(x, y, k + 1);
      }
    }
  }

  lemma {:induction false} AppendSlices(x: string, y: string, i: nat, j: nat)
    requires i <= j <= |y|
    ensures (x + y)[|x| + i..|x| + j] == y[i..j]
    ensures (x + y)[|x| + i..] == y[i..]
  {
  }

  /** One match of the scan: its name, then the names after it. */
  lemma {:induction false} NamesStep(s: string, from: nat, m: Match)
    requires from <= |s| && NextMatch(s, from) == Some(m)
    ensures m.close + 2 <= |s|
    ensures NamesFrom(s, from) == [s[m.start + 2..m.close]] + NamesFrom(s, m.close + 2)
  {
  }

  /** One match of the scan: the text before it, what it shows, then the preview after it. */
  lemma {:induction false} PreviewStep(s: string, from: nat, m: Match, values: map<string, string>)
    requires from <= |s| && NextMatch(s, from) == Some(m)
    ensures from <= m.start && m.start + 2 < m.close && m.close + 2 <= |s|
    ensures PreviewFrom(s, from, values)
         == s[from..m.start] + Shown(s[m.start + 2..m.close], s[m.start..m.close + 2], values)
            + PreviewFrom(s, m.close + 2, values)
  {
    MatchDelimiters(s, from, m);
  }

  /** No match left: the preview copies the rest of the text. */
  lemma {:induction false} PreviewEnd(s: string, from: nat, values: map<string, string>)
    requires from <= |s| && NextMatch(s, from).None?
    ensures PreviewFrom(s, from, values) == s[from..]
  {
  }

  lemma ThreeSlices(s: string, i: nat, j: nat, k: nat)
    requires i <= j <= k <= |s|
    ensures s[i..] == s[i..j] + s[j..k] + s[k..]
  {
  }

  /** The match after text put in front: the same token, moved. */
  lemma {:induction false} ShiftedMatch(x: string, y: string, k: nat, m: Match)
    requires k <= |y| && NextMatch(y, k) == Some(m)
    ensures k <= m.start && m.start + 2 < m.close && m.close + 2 <= |y|
    ensures NextMatch(x + y, |x| + k) == Some(Match(|x| + m.start, |x| + m.close))
  {
    NextMatchShift(x, y, k);
  }

  /** No match left from `from` on: no names either. */
  lemma {:induction false} NamesEnd(s: string, from: nat)
    requires from <= |s| && NextMatch(s, from).None?
    ensures NamesFrom(s, from) == []
  {
  }

  lemma ConsCongruence(a1: string, a2: string, r1: seq<string>, r2: seq<string>)
    requires a1 == a2 && r1 == r2
    ensures [a1] + r1 == [a2] + r2
  {
  }

  /** One match of the scan after text put in front: the same name, then the
      names after the moved token. */
  lemma ShiftedNamesStep(x: string, y: string, s: string, k: nat, m: Match)
    requires s == x + y && k <= |y| && NextMatch(y, k) == Some(m)
    ensures m.close + 2 <= |y|
    ensures NamesFrom(s, |x| + k) == [y[m.start + 2..m.close]] + NamesFrom(s, |x| + (m.close + 2))
  {
    ShiftedStep(x, y, s, k, m);
    NamesStepAt(s, |x| + k, Match(|x| + m.start, |x| + m.close), y[m.start + 2..m.close], |x| + (m.close + 2));
  }

  /** The scan from `from` finds `m`, whose name is `name`, and resumes at `next`. */
  predicate StepAt(s: string, from: nat, m: Match, name: string, next: nat)
  {
    from <= |s| && NextMatch(s, from) == Some(m) && s[m.start + 2..m.close] == name && next == m.close + 2
  }

  /** The match after text put in front, with its name and resume position. */
  lemma ShiftedStep(x: string, y: string, s: string, k: nat, m: Match)
    requires s == x + y && k <= |y| && NextMatch(y, k) == Some(m)
    ensures StepAt(s, |x| + k, Match(|x| + m.start, |x| + m.close), y[m.start + 2..m.close], |x| + (m.close + 2))
  {
    var moved := Match(|x| + m.start, |x| + m.close);
    ShiftedMatch(x, y, k, m);
    SliceShift(x, y, m.start + 2, m.close, moved.start + 2, moved.close);
  }

  /** `NamesStep` with the name and the resume position given by the caller. */
  lemma NamesStepAt(s: string, from: nat, m: Match, name: string, next: nat)
    requires StepAt(s, from, m, name, next)
    ensures next <= |s| && NamesFrom(s, from) == [name] + NamesFrom(s, next)
  {
    NamesStep(s, from, m);
  }

  /** A slice of `y` read inside `x + y`, at positions moved by `|x|`. */
  lemma SliceShift(x: string, y: string, i: nat, j: nat, p: nat, q: nat)
    requires i <= j <= |y| && p == |x| + i && q == |x| + j
    ensures (x + y)[p..q] == y[i..j]
  {
    AppendSlices(x, y, i, j);
  }

  /** Text put in front changes none of the captured names after it. */
  lemma {:induction false} NamesShift(x: string, y: string, k: nat)
    requires k <= |y|
    ensures NamesFrom(x + y, |x| + k) == NamesFrom(y, k)
    decreases |y| - k
  {
    match NextMatch(y, k)
    case None =>
      ShiftedNamesEnd(x, y, k);
    case Some(m) =>
      NamesShift(x, y, m.close + 2);
      NamesShiftStep(x, y, k, m);
  }

  /** One match of the induction: the same name in front of the names that
      already agree after it. */
  lemma NamesShiftStep(x: string, y: string, k: nat, m: Match)
    requires k <= |y| && NextMatch(y, k) == Some(m)
    requires NamesFrom(x + y, |x| + (m.close + 2)) == NamesFrom(y, m.close + 2)
    ensures NamesFrom(x + y, |x| + k) == NamesFrom(y, k)
  {
    ShiftedNamesStep(x, y, x + y, k, m);
    NamesStep(y, k, m);
  }

  /** No match left after `k` in `y`: none after `|x| + k` in `x + y` either. */
  lemma ShiftedNamesEnd(x: string, y: string, k: nat)
    requires k <= |y| && NextMatch(y, k).None?
    ensures NamesFrom(x + y, |x| + k) == NamesFrom(y, k)
  {
    NextMatchShift(x, y, k);
    NamesEnd(x + y, |x| + k);
    NamesEnd(y, k);
  }

  /** A token `{{n}}` at `q` whose name is non-empty and free of `}` is matched there. */
  lemma {:induction false} MatchAtPlaceholder(s: string, q: nat, n: string)
    requires q + |n| + 4 <= |s| && n != [] && '}' !in n
    requires s[q] == '{' && s[q + 1] == '{' && s[q + 2..q + |n| + 2] == n
    requires s[q + |n| + 2] == '}' && s[q + |n| + 3] == '}'
    ensures NextMatch(s, q) == Some(Match(q, q + |n| + 2))
  {
    forall i | q + 2 <= i < q + |n| + 2 ensures s[i] != '}' {
      assert s[i] == s[q + 2..q + |n| + 2][i - q - 2];
    }
    CloseBraceAt(s, q + 2, q + |n| + 2);
  }

  /** A text that starts with the token `k`, spelling `{{n}}`, is matched at 0. */
  lemma {:induction false} LeadingTokenMatch(k: string, n: string, b: string)
    requires k == "{{" + n + "}}" && n != [] && '}' !in n
    ensures NextMatch(k + b, 0) == Some(Match(0, |n| + 2))
  {
    var s := k + b;
    assert s[0] == '{' && s[1] == '{' && s[|n| + 2] == '}' && s[|n| + 3] == '}';
    assert s[2..|n| + 2] == k[2..|n| + 2] == n;
    MatchAtPlaceholder(s, 0, n);
  }

  /** `a` is plain text (no `{`) and `k` is the token `{{n}}` with a non-empty
      name free of `}`: the shape of each piece of a text written out piece
      by piece. */
  predicate PlainThenToken(a: string, k: string, n: string)
  {
    k == "{{" + n + "}}" && '{' !in a && n != [] && '}' !in n
  }

  /** Plain text `a`, then the token `k` spelling `{{n}}`: the scan from the
      start finds that token. */
  lemma {:induction false} NextMatchOfPiece(a: string, k: string, n: string, b: string)
    requires PlainThenToken(a, k, n)
    ensures NextMatch(a + (k + b), 0) == Some(Match(|a|, |a| + |n| + 2))
  {
    var s := a + (k + b);
    assert s[0..|a|] == a;
    PlainSlice(s, 0, |a|, a);
    PlainSkip(s, 0, |a|);
    LeadingTokenMatch(k, n, b);
    NextMatchShift(a, k + b, 0);
  }

  /** Where the text, the token and its name sit in `a + (k + b)`. */
  lemma {:induction false} PieceSlices(a: string, k: string, n: string, b: string)
    requires k == "{{" + n + "}}"
    ensures |a + (k + b)| == |a| + |n| + 4 + |b|
    ensures (a + (k + b))[0..|a|] == a
    ensures (a + (k + b))[|a|..|a| + |n| + 4] == k
    ensures (a + (k + b))[|a| + 2..|a| + |n| + 2] == n
    ensures (a + (k + b))[|a| + |n| + 4..] == b
  {
    AppendSlices(a, k + b, 2, |n| + 2);
    AppendSlices(a, k + b, 0, |n| + 4);
    AppendSlices(a, k + b, |n| + 4, |n| + 4);
    assert (k + b)[2..|n| + 2] == k[2..|n| + 2] == n;
    assert (k + b)[0..|n| + 4] == k;
  }

  /** Where a match sits in `s`: the scan from the start finds `m`, the
      text `a` precedes it, it spells `k` with the name `n`, and `b` follows it. */
  predicate PieceLayout(s: string, m: Match, a: string, k: string, n: string, b: string)
  {
    NextMatch(s, 0) == Some(m)
    && s[0..m.start] == a && s[m.start..m.close + 2] == k
    && s[m.start + 2..m.close] == n && s[m.close + 2..] == b
  }

  /** Plain text `a`, then the token `k` spelling `{{n}}`, then `b`: the
      scan finds that token, laid out as written. */
  lemma {:induction false} PieceLayoutOf(a: string, k: string, n: string, b: string)
    requires PlainThenToken(a, k, n)
    ensures PieceLayout(a + (k + b), Match(|a|, |a| + |n| + 2), a, k, n, b)
    ensures |a + (k + b)| == |a| + |n| + 4 + |b|
  {
    NextMatchOfPiece(a, k, n, b);
    PieceSlices(a, k, n, b);
    assert |a| + |n| + 2 + 2 == |a| + |n| + 4;
  }

  /** After the token the scan only sees `b`. */
  lemma {:induction false} NamesAfterPiece(a: string, k: string, n: string, b: string)
    requires k == "{{" + n + "}}"
    ensures |a + (k + b)| == |a| + |n| + 4 + |b|
    ensures NamesFrom(a + (k + b), |a| + |n| + 4) == NamesFrom(b, 0)
  {
    assert a + (k + b) == (a + k) + b;
    NamesShift(a + k, b, 0);
  }

  /** A text made of plain text `a`, the token `k` spelling `{{n}}`, and the
      rest `b`: the name `n`, then the names of `b`. */
  lemma {:induction false} NamesOfPiece(a: string, k: string, n: string, b: string)
    requires PlainThenToken(a, k, n)
    ensures ContentNames(a + (k + b)) == [n] + ContentNames(b)
  {
    var m := Match(|a|, |a| + |n| + 2);
    PieceLayoutOf(a, k, n, b);
    NamesAfterPiece(a, k, n, b);
    assert m.close + 2 == |a| + |n| + 4;
    NamesOfMatchedPiece(a + (k + b), m, a, k, n, b);
  }

  /** The scan of `s` finds the match `m` whose name is `n`, and after it
      the names of `b`: the name `n`, then those names. */
  lemma {:induction false} NamesOfMatchedPiece(s: string, m: Match, a: string, k: string, n: string, b: string)
    requires PieceLayout(s, m, a, k, n, b) && NamesFrom(s, m.close + 2) == NamesFrom(b, 0)
    ensures NamesFrom(s, 0) == [n] + NamesFrom(b, 0)
  {
    NamesStep(s, 0, m);
  }

  /** Text without `{` has no parameters and previews as itself. */
  lemma {:induction false} PlainText(t: string, values: map<string, string>)
    requires '{' !in t
    ensures ContentNames(t) == []
    ensures Preview(t, values) == t
  {
    assert t[0..|t|] == t;
    PlainSlice(t, 0, |t|, t);
    PlainSkip(t, 0, |t|);
  }

  lemma {:induction false} NamesOfLastPiece(a: string, k: string, n: string)
    requires PlainThenToken(a, k, n)
    ensures ContentNames(a + k) == [n]
  {
    assert k + "" == k;
    NamesOfPiece(a, k, n, "");
    PlainText("", map[]);
  }

  /** The names of three pieces of plain text and token, then plain text. */
  lemma {:induction false} NamesOfThreePieces(a0: string, k0: string, n0: string, a1: string, k1: string, n1: string,
                                              a2: string, k2: string, n2: string, t: string)
    requires PlainThenToken(a0, k0, n0) && PlainThenToken(a1, k1, n1) && PlainThenToken(a2, k2, n2) && '{' !in t
    ensures ContentNames(a0 + (k0 + (a1 + (k1 + (a2 + (k2 + t)))))) == [n0, n1, n2]
  {
    var r2 := a2 + (k2 + t);
    var r1 := a1 + (k1 + r2);
    NamesOfPiece(a0, k0, n0, r1);
    NamesOfPiece(a1, k1, n1, r2);
    NamesOfPiece(a2, k2, n2, t);
    PlainText(t, map[]);
    assert [n0] + ([n1] + ([n2] + [])) == [n0, n1, n2];
  }

  /** The names of three pieces of plain text and token, the last token ending the text. */
  lemma {:induction false} NamesOfThreePiecesLast(a0: string, k0: string, n0: string, a1: string, k1: string, n1: string,
                                                  a2: string, k2: string, n2: string)
    requires PlainThenToken(a0, k0, n0) && PlainThenToken(a1, k1, n1) && PlainThenToken(a2, k2, n2)
    ensures ContentNames(a0 + (k0 + (a1 + (k1 + (a2 + k2))))) == [n0, n1, n2]
  {
    var r1 := a1 + (k1 + (a2 + k2));
    NamesOfPiece(a0, k0, n0, r1);
    NamesOfPiece(a1, k1, n1, a2 + k2);
    NamesOfLastPiece(a2, k2, n2);
    assert [n0] + ([n1] + [n2]) == [n0, n1, n2];
  }

  /** Plain text, one token, plain text: one parameter. */
  lemma {:induction false} ParamsOfOnePiece(a: string, k: string, n: string, t: string)
    requires PlainThenToken(a, k, n) && '{' !in t
    ensures ExtractParams(a + (k + t)) == [n]
  {
    NamesOfPiece(a, k, n, t);
    PlainText(t, map[]);
    assert [n] + [] == [n];
    DedupeOfDistinct([n]);
  }

  /** Three tokens with distinct names followed by plain text: three parameters in token order. */
  lemma {:induction false} ParamsOfThreePieces(a0: string, k0: string, n0: string, a1: string, k1: string, n1: string,
                                               a2: string, k2: string, n2: string, t: string)
    requires PlainThenToken(a0, k0, n0) && PlainThenToken(a1, k1, n1) && PlainThenToken(a2, k2, n2) && '{' !in t
    requires n0 != n1 && n0 != n2 && n1 != n2
    ensures ExtractParams(a0 + (k0 + (a1 + (k1 + (a2 + (k2 + t)))))) == [n0, n1, n2]
  {
    NamesOfThreePieces(a0, k0, n0, a1, k1, n1, a2, k2, n2, t);
    DedupeOfDistinct([n0, n1, n2]);
  }

  /** Three tokens with distinct names, the last ending the text: three parameters in token order. */
  lemma {:induction false} ParamsOfThreePiecesLast(a0: string, k0: string, n0: string, a1: string, k1: string, n1: string,
                                                   a2: string, k2: string, n2: string)
    requires PlainThenToken(a0, k0, n0) && PlainThenToken(a1, k1, n1) && PlainThenToken(a2, k2, n2)
    requires n0 != n1 && n0 != n2 && n1 != n2
    ensures ExtractParams(a0 + (k0 + (a1 + (k1 + (a2 + k2))))) == [n0, n1, n2]
  {
    NamesOfThreePiecesLast(a0, k0, n0, a1, k1, n1, a2, k2, n2);
    DedupeOfDistinct([n0, n1, n2]);
  }

  /** A name used twice is captured twice and listed once, where it first occurs. */
  lemma {:induction false} RepeatedNameListedOnce(a0: string, a1: string, a2: string, n: string, m: string)
    requires '{' !in a0 && '{' !in a1 && '{' !in a2
    requires n != [] && '}' !in n && m != [] && '}' !in m && n != m
    ensures ContentNames(a0 + ("{{" + n + "}}" + (a1 + ("{{" + m + "}}" + (a2 + ("{{" + n + "}}")))))) == [n, m, n]
    ensures ExtractParams(a0 + ("{{" + n + "}}" + (a1 + ("{{" + m + "}}" + (a2 + ("{{" + n + "}}")))))) == [n, m]
  {
    NamesOfThreePiecesLast(a0, "{{" + n + "}}", n, a1, "{{" + m + "}}", m, a2, "{{" + n + "}}", n);
    var names := [n, m, n];
    assert names[..2] == [n, m];
    assert [n, m][..1] == [n];
    assert [n][..0] == [];
    assert Dedupe([n]) == [n];
    assert Dedupe([n, m]) == [n, m];
  }

  /** One left-to-right pass: a value put in for a token is not scanned again,
      so a value that itself looks like a token is shown as it is. */
  lemma {:induction false} PreviewIsSinglePass(a: string, n: string, b: string, values: map<string, string>)
    requires '{' !in a && n != [] && '}' !in n && '{' !in b
    requires n in values && values[n] != ""
    ensures Preview(a + ("{{" + n + "}}" + b), values) == a + values[n] + b
  {
    PreviewOfPiece(a, "{{" + n + "}}", n, b, values);
    ShownValue(n, "{{" + n + "}}", values);
  }

  /** A non-empty test value is what a token shows. */
  lemma ShownValue(name: string, fullMatch: string, values: map<string, string>)
    requires name in values && values[name] != ""
    ensures Shown(name, fullMatch, values) == values[name]
  {
  }

  /** Plain text `a`, the token `k` spelling `{{n}}`, then plain text `b`:
      the preview is `a`, what the token shows, and `b`. */
  lemma {:induction false} PreviewOfPiece(a: string, k: string, n: string, b: string, values: map<string, string>)
    requires PlainThenToken(a, k, n) && '{' !in b
    ensures Preview(a + (k + b), values) == a + Shown(n, k, values) + b
  {
    PieceLayoutOf(a, k, n, b);
    PreviewOfMatchedPiece(a + (k + b), Match(|a|, |a| + |n| + 2), a, k, n, b, values);
  }

  /** Two tokens between plain text: each is replaced by what it shows, one
      after the other, and the text around them is kept. */
  lemma {:induction false} PreviewOfTwoPieces(a: string, n: string, b: string, m: string, c: string,
                                              values: map<string, string>)
    requires '{' !in a && '{' !in b && '{' !in c
    requires n != [] && '}' !in n && m != [] && '}' !in m
    ensures Preview(a + ("{{" + n + "}}" + (b + ("{{" + m + "}}" + c))), values)
         == a + Shown(n, "{{" + n + "}}", values) + b + Shown(m, "{{" + m + "}}", values) + c
  {
    var k0, k1 := "{{" + n + "}}", "{{" + m + "}}";
    var rest := b + (k1 + c);
    var x := a + k0;
    var s := a + (k0 + rest);
    var m0 := Match(|a|, |a| + |n| + 2);
    PieceLayoutOf(a, k0, n, rest);
    assert s == x + rest && |x| == m0.close + 2;
    SecondPieceLayout(x, b, k1, m, c);
    PreviewOfTwoMatchedPieces(s, m0, |x|, Match(|x| + |b|, |x| + |b| + |m| + 2), a, k0, n, b, k1, m, c, values);
  }

  /** Where a match sits in `s` when the scan resumes at `from`: it finds
      `m`, the text `b` precedes it, it spells `k` with the name `n`, and
      `c` follows it. */
  predicate PieceLayoutFrom(s: string, from: nat, m: Match, b: string, k: string, n: string, c: string)
  {
    from <= |s| && NextMatch(s, from) == Some(m)
    && s[from..m.start] == b && s[m.start..m.close + 2] == k
    && s[m.start + 2..m.close] == n && s[m.close + 2..] == c
  }

  /** After the text `x`, plain text `b`, the token `k` spelling `{{n}}`,
      then `c`: the scan resuming after `x` finds that token, laid out as
      written. */
  lemma {:induction false} SecondPieceLayout(x: string, b: string, k: string, n: string, c: string)
    requires PlainThenToken(b, k, n)
    ensures PieceLayoutFrom(x + (b + (k + c)), |x|, Match(|x| + |b|, |x| + |b| + |n| + 2), b, k, n, c)
  {
    PieceLayoutOf(b, k, n, c);
    ShiftedLayout(x, b + (k + c), Match(|b|, |b| + |n| + 2), b, k, n, c);
  }

  /** A layout found from the start of `y` is found again, moved, by the
      scan resuming after `x` in `x + y`. */
  lemma {:induction false} ShiftedLayout(x: string, y: string, m: Match, b: string, k: string, n: string, c: string)
    requires PieceLayout(y, m, b, k, n, c)
    ensures PieceLayoutFrom(x + y, |x|, Match(|x| + m.start, |x| + m.close), b, k, n, c)
  {
    var moved := Match(|x| + m.start, |x| + m.close);
    ShiftedMatch(x, y, 0, m);
    assert NextMatch(x + y, |x|) == Some(moved);
    SliceShift(x, y, 0, m.start, |x|, moved.start);
    SliceShift(x, y, m.start, m.close + 2, moved.start, moved.close + 2);
    SliceShift(x, y, m.start + 2, m.close, moved.start + 2, moved.close);
    DropShift(x, y, m.close + 2, moved.close + 2);
  }

  /** A suffix of `y` read inside `x + y`, from a position moved by `|x|`. */
  lemma DropShift(x: string, y: string, i: nat, p: nat)
    requires i <= |y| && p == |x| + i
    ensures (x + y)[p..] == y[i..]
  {
    AppendSlices(x, y, i, i);
  }

  /** The scan of `s` finds `k0` after the text `a`, then, resuming at `p`,
      `k1` after the text `b`, and then only the plain text `c` is left: the
      preview shows `a`, the first token, `b`, the second token and `c`. */
  lemma {:induction false} PreviewOfTwoMatchedPieces(s: string, m0: Match, p: nat, m1: Match, a: string, k0: string,
                                                     n0: string, b: string, k1: string, n1: string, c: string,
                                                     values: map<string, string>)
    requires NextMatch(s, 0) == Some(m0) && s[0..m0.start] == a && s[m0.start..m0.close + 2] == k0
    requires s[m0.start + 2..m0.close] == n0 && p == m0.close + 2
    requires PieceLayoutFrom(s, p, m1, b, k1, n1, c) && '{' !in c
    ensures PreviewFrom(s, 0, values) == a + Shown(n0, k0, values) + b + Shown(n1, k1, values) + c
  {
    var shown0, shown1 := Shown(n0, k0, values), Shown(n1, k1, values);
    PreviewOfMatchedPieceFrom(s, p, m1, b, k1, n1, c, values);
    PreviewStepAt(s, 0, m0, a, n0, k0, p, values);
    assert PreviewFrom(s, 0, values) == a + shown0 + (b + shown1 + c);
    RegroupFive(a, shown0, b, shown1, c);
  }

  /** The scan resuming at `from` finds the token `k` after the text `b`,
      and plain text `c` follows it: the rest of the preview is `b`, what
      `k` shows, and `c`. */
  lemma {:induction false} PreviewOfMatchedPieceFrom(s: string, from: nat, m: Match, b: string, k: string, n: string,
                                                     c: string, values: map<string, string>)
    requires PieceLayoutFrom(s, from, m, b, k, n, c) && '{' !in c
    ensures PreviewFrom(s, from, values) == b + Shown(n, k, values) + c
  {
    PlainTail(s, m.close + 2, c, values);
    PreviewStepAt(s, from, m, b, n, k, m.close + 2, values);
  }

  /** The scan from `from` finds `m` after the text `text`; `m` spells
      `full` with the name `name`. */
  predicate StepLayout(s: string, from: nat, m: Match, text: string, name: string, full: string)
  {
    from <= |s| && NextMatch(s, from) == Some(m) && from <= m.start && m.close + 2 <= |s|
    && s[from..m.start] == text && s[m.start + 2..m.close] == name && s[m.start..m.close + 2] == full
  }

  /** `PreviewStep` with the pieces of the match and the resume position
      given by the caller. */
  lemma PreviewStepAt(s: string, from: nat, m: Match, text: string, name: string, full: string, next: nat,
                      values: map<string, string>)
    requires StepLayout(s, from, m, text, name, full) && next == m.close + 2
    ensures next <= |s|
    ensures PreviewFrom(s, from, values) == text + Shown(name, full, values) + PreviewFrom(s, next, values)
  {
    PreviewStep(s, from, m, values);
  }

  lemma RegroupFive(a: string, x: string, b: string, y: string, c: string)
    ensures a + x + (b + y + c) == a + x + b + y + c
  {
  }

  /** Only `a` filled: `{{a}}-{{b}}` shows `X-{{b}}`. */
  lemma PartlyFilledPreview(content: string)
    requires content == "{{a}}-{{b}}"
    ensures Preview(content, map["a" := "X"]) == "X-{{b}}"
  {
    var values := map["a" := "X"];
    PartlyFilledPieces(content);
    PreviewOfTwoPieces("", "a", "-", "b", "", values);
    PartlyFilledShown(values);
  }

  lemma PartlyFilledPieces(content: string)
    requires content == "{{a}}-{{b}}"
    ensures content == "" + ("{{" + "a" + "}}" + ("-" + ("{{" + "b" + "}}" + "")))
  {
  }

  lemma PartlyFilledShown(values: map<string, string>)
    requires values == map["a" := "X"]
    ensures "" + Shown("a", "{{" + "a" + "}}", values) + "-" + Shown("b", "{{" + "b" + "}}", values) + "" == "X-{{b}}"
  {
    assert Shown("a", "{{a}}", values) == "X";
    assert Shown("b", "{{b}}", values) == "{{b}}";
  }

  /** The scan of `s` finds the token `k` after the text `a`, and `b`, plain
      text, follows it: the preview is `a`, what `k` shows, and `b`. */
  lemma {:induction false} PreviewOfMatchedPiece(s: string, m: Match, a: string, k: string, n: string, b: string,
                                                 values: map<string, string>)
    requires PieceLayout(s, m, a, k, n, b) && '{' !in b
    ensures PreviewFrom(s, 0, values) == a + Shown(n, k, values) + b
  {
    PlainTail(s, m.close + 2, b, values);
    PreviewStep(s, 0, m, values);
  }

  /** Text without `{` at the end previews as itself. */
  lemma PlainTail(s: string, p: nat, b: string, values: map<string, string>)
    requires p <= |s| && s[p..] == b && '{' !in b
    ensures PreviewFrom(s, p, values) == b
  {
    assert s[p..|s|] == s[p..];
    PlainSlice(s, p, |s|, b);
    PlainSkip(s, p, |s|);
    PreviewEnd(s, p, values);
  }

  /** `{{}}` holds no token: the class `[^}]+` needs at least one character. */
  lemma {:induction false} EmptyNameRejected(s: string, values: map<string, string>)
    requires s == "{{}}"
    ensures ExtractParams(s) == [] && Preview(s, values) == s
  {
    assert CloseBrace(s, 2) == 2;
    assert MatchAt(s, 0).None? && MatchAt(s, 1).None?;
    PlainSkip(s, 2, 4);
    NoTokenNoParams(s, values);
  }

  /** `{{a}b}}` holds no token: the first `}` after `{{a` is not followed by another. */
  lemma {:induction false} SplitCloseRejected(s: string, values: map<string, string>)
    requires s == "{{a}b}}"
    ensures ExtractParams(s) == [] && Preview(s, values) == s
  {
    assert CloseBrace(s, 3) == 3;
    assert CloseBrace(s, 2) == 3;
    assert MatchAt(s, 0).None? && MatchAt(s, 1).None?;
    PlainSkip(s, 2, 7);
    NoTokenNoParams(s, values);
  }

  // ---------------------------------------------------------------------------
  // The parameter list as the code computes it

  /** `t.replace(/\{\{|\}\}/g, '')`: every `{{` and every `}}` met scanning left
      to right is deleted, not only the outer delimiters. */
  function StripDelimiters(t: string): (r: string)
    ensures |r| <= |t|
    ensures '}' !in t ==> '}' !in r
    decreases |t|
  {
    if t == [] then []
    else if "{{" <= t || "}}" <= t then StripDelimiters(t[2..])
    else [t[0]] + StripDelimiters(t[1..])
  }

  /** `extractParams` as written: every full match stripped of every `{{` and
      `}}`, then deduplicated. */
  function ExtractParamsAsWritten(content: string): (params: seq<string>)
    ensures NoDuplicates(params)
  {
    var texts := FullMatches(content, 0);
    Dedupe(seq(|texts|, i requires 0 <= i < |texts| => StripDelimiters(texts[i])))
  }

  lemma {:induction false} StripBeforeClose(t: string)
    requires '}' !in t && !Contains(t, "{{")
    ensures StripDelimiters(t + "}}") == t
    decreases |t|
  {
    if t == [] {
      assert StripDelimiters("}}"[2..]) == [];
    } else {
      var u := t + "}}";
      NoDelimiterAtHead(t);
      NoOpenInTail(t);
      StripBeforeClose(t[1..]);
      assert u[1..] == t[1..] + "}}";
    }
  }

  /** Text free of `}` and of `{{`, followed by `}}`, starts with neither delimiter. */
  lemma NoDelimiterAtHead(t: string)
    requires t != [] && '}' !in t && !Contains(t, "{{")
    ensures !("{{" <= t + "}}") && !("}}" <= t + "}}")
  {
    var u := t + "}}";
    assert u[0] == t[0] && t[0] in t;
    if |t| >= 2 {
      assert !OccursAt(t, "{{", 0);
      assert u[..2] == t[..2];
    } else {
      assert u[1] == '}';
    }
  }

  /** Text without `{{` has none after its first character either. */
  lemma NoOpenInTail(t: string)
    requires t != [] && !Contains(t, "{{")
    ensures !Contains(t[1..], "{{")
  {
    forall i | 0 <= i <= |t[1..]| - 2
      ensures !OccursAt(t[1..], "{{", i)
    {
      assert t[1..][i..i + 2] == t[i + 1..i + 3];
      assert !OccursAt(t, "{{", i + 1);
    }
  }

  /** A name without an inner `{{` survives the stripping. */
  lemma {:induction false} StripKeepsPlainName(n: string)
    requires '}' !in n && !Contains(n, "{{")
    ensures StripDelimiters("{{" + n + "}}") == n
  {
    var u := "{{" + n + "}}";
    assert "{{" <= u;
    assert u[2..] == n + "}}";
    StripBeforeClose(n);
  }

  /** When no captured name contains `{{`, the code's list is the intended one. */
  lemma {:induction false} AsWrittenAgreesWithoutInnerBraces(content: string)
    requires forall i :: 0 <= i < |ContentNames(content)| ==> !Contains(ContentNames(content)[i], "{{")
    ensures ExtractParamsAsWritten(content) == ExtractParams(content)
  {
    var names := ContentNames(content);
    var texts := FullMatches(content, 0);
    NamesWellFormed(content, 0);
    FullMatchesSpellNames(content, 0);
    var stripped := seq(|texts|, i requires 0 <= i < |texts| => StripDelimiters(texts[i]));
    forall i | 0 <= i < |names| ensures stripped[i] == names[i] {
      StripKeepsPlainName(names[i]);
    }
    assert stripped == names;
  }

  /** Text without braces comes through the stripping unchanged. */
  lemma {:induction false} StripPlainPrefix(t: string, rest: string)
    requires '{' !in t && '}' !in t
    ensures StripDelimiters(t + rest) == t + StripDelimiters(rest)
    decreases |t|
  {
    if t == [] {
      assert t + rest == rest;
    } else {
      assert '{' !in t[1..] && '}' !in t[1..] by {
        forall i | 0 <= i < |t[1..]| ensures t[1..][i] == t[i + 1] { }
      }
      StripPlainPrefix(t[1..], rest);
      StripPlainStep(t, rest);
    }
  }

  /** The step of `StripPlainPrefix`: the first character is copied. */
  lemma StripPlainStep(t: string, rest: string)
    requires t != [] && t[0] != '{' && t[0] != '}'
    requires StripDelimiters(t[1..] + rest) == t[1..] + StripDelimiters(rest)
    ensures StripDelimiters(t + rest) == t + StripDelimiters(rest)
  {
    PlainHead(t, rest);
    StripCopiesHead(t + rest);
    ConsTail(t, StripDelimiters(rest));
  }

  /** `t + rest` starts with `t`'s first character, which opens no delimiter. */
  lemma PlainHead(t: string, rest: string)
    requires t != [] && t[0] != '{' && t[0] != '}'
    ensures (t + rest)[0] == t[0] && (t + rest)[1..] == t[1..] + rest
    ensures !("{{" <= t + rest) && !("}}" <= t + rest)
  {
  }

  /** A first character that starts no delimiter is kept by the stripping. */
  lemma StripCopiesHead(u: string)
    requires u != [] && !("{{" <= u) && !("}}" <= u)
    ensures StripDelimiters(u) == [u[0]] + StripDelimiters(u[1..])
  {
  }

  lemma ConsTail(t: string, x: string)
    requires t != []
    ensures [t[0]] + (t[1..] + x) == t + x
  {
    assert t == [t[0]] + t[1..];
  }

  /** The full match of a name with an inner `{{`, stripped as the code does:
      both `{{` go, so the name loses its inner braces. */
  lemma {:induction false} InnerOpenStripped(x: string, y: string)
    requires '{' !in x && '}' !in x && '{' !in y && '}' !in y
    ensures StripDelimiters("{{" + (x + ("{{" + y)) + "}}") == x + y
  {
    var u := "{{" + (x + ("{{" + y)) + "}}";
    assert "{{" <= u;
    assert u[2..] == x + ("{{" + (y + "}}"));
    StripPlainPrefix(x, "{{" + (y + "}}"));
    var v := "{{" + (y + "}}");
    assert "{{" <= v && v[2..] == y + "}}";
    StripPlainPrefix(y, "}}");
    assert "}}"[2..] == [];
  }

  /** A name with an inner `{{` is still a well-formed captured name, longer than its stripped form. */
  lemma {:induction false} InnerOpenName(x: string, y: string)
    requires '}' !in x && '}' !in y
    ensures x + ("{{" + y) != [] && '}' !in x + ("{{" + y)
    ensures |x + y| < |x + ("{{" + y)|
  {
    var n := x + ("{{" + y);
    forall i | 0 <= i < |n| ensures n[i] != '}' {
      if i >= |x| + 2 { assert n[i] == y[i - |x| - 2]; }
      else if i >= |x| { assert n[i] == '{'; }
      else { assert n[i] == x[i]; }
    }
  }

  /** The content that is one token `{{n}}`: the scan finds it at 0 and nothing after it. */
  lemma {:induction false} SingleTokenMatch(n: string)
    requires n != [] && '}' !in n
    ensures NextMatch("{{" + n + "}}", 0) == Some(Match(0, |n| + 2))
    ensures ("{{" + n + "}}")[2..|n| + 2] == n
    ensures NextMatch("{{" + n + "}}", |n| + 4) == None
  {
    var k := "{{" + n + "}}";
    assert k[0] == '{' && k[1] == '{' && k[|n| + 2] == '}' && k[|n| + 3] == '}';
    assert k[2..|n| + 2] == n;
    MatchAtPlaceholder(k, 0, n);
  }

  /** That content has one full match, itself, and one name. */
  lemma {:induction false} SingleTokenScan(n: string)
    requires n != [] && '}' !in n
    ensures FullMatches("{{" + n + "}}", 0) == ["{{" + n + "}}"]
    ensures ContentNames("{{" + n + "}}") == [n]
  {
    var k := "{{" + n + "}}";
    SingleTokenMatch(n);
    assert NamesFrom(k, |n| + 4) == [] && FullMatches(k, |n| + 4) == [];
    NamesStep(k, 0, Match(0, |n| + 2));
    ConsCongruence(k[2..|n| + 2], n, NamesFrom(k, |n| + 4), []);
    assert FullMatches(k, 0) == [k[0..|n| + 4]] + FullMatches(k, |n| + 4);
    assert k[0..|n| + 4] == k;
    ConsCongruence(k[0..|n| + 4], k, FullMatches(k, |n| + 4), []);
  }

  /** That content's one parameter. */
  lemma {:induction false} SingleTokenParams(n: string)
    requires n != [] && '}' !in n
    ensures ExtractParams("{{" + n + "}}") == [n]
  {
    SingleTokenScan(n);
    DedupeOfDistinct([n]);
  }

  /** The parameter the code lists for that content: its one full match, stripped. */
  lemma {:induction false} SingleTokenParamsAsWritten(n: string)
    requires n != [] && '}' !in n
    ensures ExtractParamsAsWritten("{{" + n + "}}") == [StripDelimiters("{{" + n + "}}")]
  {
    var k := "{{" + n + "}}";
    SingleTokenScan(n);
    var stripped := seq(1, i requires 0 <= i < 1 => StripDelimiters([k][i]));
    assert stripped == [StripDelimiters(k)];
    DedupeOfDistinct(stripped);
  }

  /** That content previews as what its token shows. */
  lemma {:induction false} SingleTokenPreview(n: string, values: map<string, string>)
    requires n != [] && '}' !in n
    ensures Preview("{{" + n + "}}", values) == Shown(n, "{{" + n + "}}", values)
  {
    var k := "{{" + n + "}}";
    SingleTokenMatch(n);
    PreviewStep(k, 0, Match(0, |n| + 2), values);
    assert PreviewFrom(k, |n| + 4, values) == [];
    assert k[0..|n| + 4] == k;
    assert k[0..0] == [];
  }

  /** For the content `{{x{{y}}` the code lists the parameter `xy`, while the
      preview looks up the captured name `x{{y`: a value typed into the listed
      field never reaches the preview. */
  lemma {:induction false} InnerOpenBraceMisses(x: string, y: string, v: string)
    requires '{' !in x && '}' !in x && '{' !in y && '}' !in y
    ensures ExtractParamsAsWritten("{{" + (x + ("{{" + y)) + "}}") == [x + y]
    ensures ExtractParams("{{" + (x + ("{{" + y)) + "}}") == [x + ("{{" + y)]
    ensures Preview("{{" + (x + ("{{" + y)) + "}}", map[x + y := v]) == "{{" + (x + ("{{" + y)) + "}}"
  {
    InnerOpenName(x, y);
    SingleTokenParams(x + ("{{" + y));
    SingleTokenParamsAsWritten(x + ("{{" + y));
    SingleTokenPreview(x + ("{{" + y), map[x + y := v]);
    InnerOpenStripped(x, y);
  }

  /** The smallest such content, `{{a{{b}}`. */
  lemma {:induction false} StrippedNameMisses(content: string)
    requires content == "{{a{{b}}"
    ensures ExtractParamsAsWritten(content) == ["ab"]
    ensures ExtractParams(content) == ["a{{b"]
  {
    SmallestInnerOpen();
    InnerOpenBraceMisses("a", "b", "X");
  }

  /** `{{a{{b}}` cut as `{{`, `a`, `{{`, `b`, `}}`. */
  lemma SmallestInnerOpen()
    ensures "{{a{{b}}" == "{{" + ("a" + ("{{" + "b")) + "}}"
    ensures "a" + "b" == "ab" && "a" + ("{{" + "b") == "a{{b"
  {
  }

  /** The loop's bookkeeping for one match: pushing the text before the token
      and what the token shows moves them from the rest of the preview into
      the result. */
  lemma RenderStep(content: string, lastIndex: nat, m: Match, values: map<string, string>,
                   result: seq<string>, before: string, shown: string, nextResult: seq<string>, nextIndex: nat,
                   whole: string)
    requires lastIndex <= |content| && NextMatch(content, lastIndex) == Some(m)
    requires Join(result, "") + PreviewFrom(content, lastIndex, values) == whole
    requires before == content[lastIndex..m.start]
    requires shown == Shown(content[m.start + 2..m.close], content[m.start..m.close + 2], values)
    requires nextResult == result + [before] + [shown] && nextIndex == m.close + 2
    ensures nextIndex <= |content|
    ensures Join(nextResult, "") + PreviewFrom(content, nextIndex, values) == whole
  {
    PreviewStep(content, lastIndex, m, values);
    PushStep(result, before, shown, PreviewFrom(content, nextIndex, values), whole);
  }

  /** Pushing two pieces onto the result moves them out of what is left. */
  lemma PushStep(result: seq<string>, before: string, shown: string, rest: string, whole: string)
    requires Join(result, "") + (before + shown + rest) == whole
    ensures Join(result + [before] + [shown], "") + rest == whole
  {
    JoinAppendEmptySep(result, before);
    JoinAppendEmptySep(result + [before], shown);
  }

  /** The loop's end: no token is left, and the rest of the text, when there
      is any, completes the preview. */
  lemma RenderEnd(content: string, lastIndex: nat, values: map<string, string>, result: seq<string>,
                  whole: string)
    requires lastIndex <= |content| && NextMatch(content, lastIndex).None?
    requires Join(result, "") + PreviewFrom(content, lastIndex, values) == whole
    ensures lastIndex < |content| ==> Join(result + [content[lastIndex..]], "") == whole
    ensures lastIndex == |content| ==> Join(result, "") == whole
  {
    PreviewEnd(content, lastIndex, values);
    JoinAppendEmptySep(result, content[lastIndex..]);
  }

  /** The body of `renderPreview`: scan `content` left to right, push the text
      between tokens and, for each token, its non-empty test value or the token
      itself, then join the pieces. */
  method RenderPreviewOf(content: string, values: map<string, string>) returns (out: string)
    ensures out == Preview(content, values)
  {
    var result: seq<string> := [];
    var lastIndex := 0;
    var found := NextMatch(content, lastIndex);
    while found.Some?
      invariant lastIndex <= |content|
      invariant found == NextMatch(content, lastIndex)
      invariant Join(result, "") + PreviewFrom(content, lastIndex, values) == Preview(content, values)
      decreases |content| - lastIndex
    {
      var m := found.value;
      var before := content[lastIndex..m.start];
      var paramName := content[m.start + 2..m.close];
      var fullMatch := content[m.start..m.close + 2];
      var shown := if paramName in values && values[paramName] != "" then values[paramName] else fullMatch;
      ghost var prevResult, prevIndex := result, lastIndex;
      result := result + [before] + [shown];
      lastIndex := m.close + 2;
      RenderStep(content, prevIndex, m, values, prevResult, before, shown, result, lastIndex,
                 Preview(content, values));
      found := NextMatch(content, lastIndex);
    }
    RenderEnd(content, lastIndex, values, result, Preview(content, values));
    if lastIndex < |content| {
      result := result + [content[lastIndex..]];
    }
    out := Join(result, "");
  }

  // ---------------------------------------------------------------------------
  // The editor's state

  /** The editor sheet: the template being edited, the parameter list and the
      test values typed for the parameters. */
  class Editor {
    var edited: Option<Template>
    var params: seq<string>
    var testValues: map<string, string>

    /** Mounting with a template: the state starts empty and the load effect
        runs once. */
    constructor(template: Option<Template>)
      ensures edited == template
      ensures template.Some? && template.value.content != "" ==>
                params == ExtractParams(template.value.content) && testValues == EmptyValues(params)
      ensures !(template.Some? && template.value.content != "") ==> params == [] && testValues == map[]
    {
      edited := template;
      if template.Some? && template.value.content != "" {
        var found := ExtractParams(template.value.content);
        params := found;
        testValues := EmptyValues(found);
      } else {
        params := [];
        testValues := map[];
      }
    }

    /** A new template arrives: it becomes the edited one; the parameters and
        test values are recomputed only when its content is non-empty, and
        otherwise kept from before. */
    method LoadTemplate(template: Option<Template>)
      modifies this
      ensures edited == template
      ensures template.Some? && template.value.content != "" ==>
                params == ExtractParams(template.value.content) && testValues == EmptyValues(params)
      ensures !(template.Some? && template.value.content != "") ==>
                params == old(params) && testValues == old(testValues)
    {
      edited := template;
      if template.Some? && template.value.content != "" {
        params := ExtractParams(template.value.content);
        testValues := EmptyValues(params);
      }
    }

    /** The content is edited: the parameters follow the new content and the
        test values are kept; without a template nothing changes. */
    method ChangeContent(newContent: string)
      modifies this
      ensures old(edited).Some? ==>
                edited == Some(old(edited).value.(content := newContent)) && params == ExtractParams(newContent)
      ensures old(edited).None? ==> edited == old(edited) && params == old(params)
      ensures testValues == old(testValues)
    {
      if edited.Some? {
        edited := Some(edited.value.(content := newContent));
        params := ExtractParams(newContent);
      }
    }

    /** A test value is typed: only that parameter's entry changes. */
    method ChangeTestValue(param: string, value: string)
      modifies this
      ensures testValues == old(testValues)[param := value]
      ensures edited == old(edited) && params == old(params)
    {
      testValues := testValues[param := value];
    }

    /** The preview text: scan the content left to right, copy the text between
        tokens, and put in each token's test value, or the token itself when the
        value is missing or empty. */
    method RenderPreview() returns (out: string)
      ensures edited.None? ==> out == ""
      ensures edited.Some? ==> out == Preview(edited.value.content, testValues)
    {
      if edited.None? {
        return "";
      }
      out := RenderPreviewOf(edited.value.content, testValues);
    }
  }

  // ---------------------------------------------------------------------------
  // The sample templates

  lemma {:induction false} WelcomeParams()
    ensures ExtractParams(WelcomeContent) == ["name"]
  {
    ParamsOfOnePiece("Hello ", "{{name}}", "name", "! Welcome to our store." + " How can we help you today?");
  }

  lemma {:induction false} OrderStatusParams()
    ensures ExtractParams(OrderStatusContent) == ["order_id", "status", "date"]
  {
    ParamsOfThreePiecesLast("Your order ", "{{order_id}}", "order_id", " is ", "{{status}}", "status",
                            ". Expected delivery: ", "{{date}}", "date");
  }

  lemma ReminderPieces()
    ensures PlainThenToken("Hi ", "{{patient_name}}", "patient_name")
    ensures PlainThenToken(", this is a reminder" + " for your appointment on ", "{{date}}", "date")
    ensures PlainThenToken(" at ", "{{time}}", "time")
    ensures '{' !in "." && "patient_name" != "date" && "patient_name" != "time" && "date" != "time"
  {
  }

  lemma {:induction false} ReminderParams()
    ensures ExtractParams(ReminderContent) == ["patient_name", "date", "time"]
  {
    ReminderPieces();
    ParamsOfThreePieces("Hi ", "{{patient_name}}", "patient_name",
                        ", this is a reminder" + " for your appointment on ", "{{date}}", "date",
                        " at ", "{{time}}", "time", ".");
  }

  /** Each sample template's declared variables are the parameters of its
      content, in first-occurrence order. */
  lemma {:induction false} MockTemplateVariablesAreParams()
    ensures forall i :: 0 <= i < |AllMessageTemplates()| ==>
              AllMessageTemplates()[i].variables == ExtractParams(AllMessageTemplates()[i].content)
  {
    WelcomeParams();
    OrderStatusParams();
    ReminderParams();
    var ts := AllMessageTemplates();
    forall i | 0 <= i < |ts| ensures ts[i].variables == ExtractParams(ts[i].content) {
      if i == 0 {
        assert ts[i] == WelcomeMessage;
      } else if i == 1 {
        assert ts[i] == OrderStatusMessage;
      } else {
        assert ts[i] == AppointmentReminderMessage;
      }
    }
  }
}
