/**
 * The integrations and tool-sets page (src/pages/ApisAndTools.tsx): `slugify`,
 * which turns a display name into a URL path segment, and the links built
 * from it. `slugify` is a chain of five regular-expression replaces, each
 * modelled as a pass over the string.
 */
module ApisAndTools {
  import opened Common
  import opened Text

  predicate IsDash(c: char) { c == '-' }

  /** `\w` plus `-`: the characters the non-word pass keeps. */
  predicate IsWordOrDash(c: char)
  {
    IsAsciiLower(c) || IsAsciiUpper(c) || IsDigit(c) || c == '_' || c == '-'
  }

  /** The characters a slug is made of: `a-z`, `0-9`, `_` and `-`. */
  predicate IsSlugChar(c: char)
  {
    IsAsciiLower(c) || IsDigit(c) || c == '_' || c == '-'
  }

  predicate NoUpper(s: string)
  {
    forall i :: 0 <= i < |s| ==> !IsAsciiUpper(s[i])
  }

  predicate NoDoubleDash(s: string)
  {
    forall i :: 0 <= i < |s| - 1 ==> !(s[i] == '-' && s[i + 1] == '-')
  }

  /** What `slugify` promises about its output. */
  predicate IsSlug(s: string)
  {
    (forall i :: 0 <= i < |s| ==> IsSlugChar(s[i]))
    && NoDoubleDash(s)
    && (s != [] ==> s[0] != '-' && s[|s| - 1] != '-')
  }

  /** `replace(/X+/g, '-')` for a character class X given by `inClass`: every
      maximal run of class characters becomes one `-`. `inRun` says the
      character before `s` was in the class, so the run has had its `-`. */
  function RunsToDash(s: string, inClass: char -> bool, inRun: bool): (r: string)
    ensures |r| <= |s|
    decreases |s|
  {
    if s == [] then []
    else if inClass(s[0]) then (if inRun then [] else "-") + RunsToDash(s[1..], inClass, true)
    else [s[0]] + RunsToDash(s[1..], inClass, false)
  }

  /** `replace(/[^\w\-]+/g, '')`: every character outside `\w` and `-` removed. */
  function KeepWordChars(s: string): (r: string)
    ensures |r| <= |s|
    decreases |s|
  {
    if s == [] then []
    else (if IsWordOrDash(s[0]) then [s[0]] else []) + KeepWordChars(s[1..])
  }

  /** `replace(/^-+/, '')`. */
  function TrimLeadingDashes(s: string): (r: string)
    ensures |r| <= |s| && r == s[|s| - |r|..]
    ensures r != [] ==> r[0] != '-'
    ensures forall i :: 0 <= i < |s| - |r| ==> s[i] == '-'
    decreases |s|
  {
    if s != [] && s[0] == '-' then TrimLeadingDashes(s[1..]) else s
  }

  /** `replace(/-+$/, '')`. */
  function TrimTrailingDashes(s: string): (r: string)
    ensures |r| <= |s| && r == s[..|r|]
    ensures r != [] ==> r[|r| - 1] != '-'
    ensures forall i :: |r| <= i < |s| ==> s[i] == '-'
    decreases |s|
  {
    if s != [] && s[|s| - 1] == '-' then TrimTrailingDashes(s[..|s| - 1]) else s
  }

  /** `slugify`. */
  function Slugify(text: string): (slug: string)
    ensures |slug| <= |text|
  {
    var lowered := Lower(text);
    var dashed := RunsToDash(lowered, IsSpace, false);
    var words := KeepWordChars(dashed);
    var single := RunsToDash(words, IsDash, false);
    TrimTrailingDashes(TrimLeadingDashes(single))
  }

  /* ---- What each pass keeps ---- */

  lemma LowerHasNoUpper(s: string)
    ensures NoUpper(Lower(s))
  {
  }

  /** Replacing runs by `-` adds no upper-case letter and leaves no character
      of the class behind. */
  lemma {:induction false} RunsToDashKeeps(s: string, inClass: char -> bool, inRun: bool)
    requires NoUpper(s)
    ensures NoUpper(RunsToDash(s, inClass, inRun))
    ensures forall i :: 0 <= i < |RunsToDash(s, inClass, inRun)| ==>
              RunsToDash(s, inClass, inRun)[i] == '-' || !inClass(RunsToDash(s, inClass, inRun)[i])
    decreases |s|
  {
    if s != [] {
      RunsToDashKeeps(s[1..], inClass, false);
      RunsToDashKeeps(s[1..], inClass, true);
    }
  }

  /** After the non-word pass, a string without upper-case letters holds only
      slug characters. */
  lemma {:induction false} KeepWordCharsGivesSlugChars(s: string)
    requires NoUpper(s)
    ensures forall i :: 0 <= i < |KeepWordChars(s)| ==> IsSlugChar(KeepWordChars(s)[i])
    decreases |s|
  {
    if s != [] {
      KeepWordCharsGivesSlugChars(s[1..]);
    }
  }

  /** Collapsing dash runs leaves no `--`, and when the character before was a
      dash, the output does not start with one. */
  lemma {:induction false} CollapsedHasNoDoubleDash(s: string, inRun: bool)
    ensures NoDoubleDash(RunsToDash(s, IsDash, inRun))
    ensures inRun && RunsToDash(s, IsDash, inRun) != [] ==> RunsToDash(s, IsDash, inRun)[0] != '-'
    decreases |s|
  {
    if s != [] {
      CollapsedHasNoDoubleDash(s[1..], true);
      CollapsedHasNoDoubleDash(s[1..], false);
    }
  }

  /** Collapsing dash runs keeps slug characters slug characters. */
  lemma {:induction false} CollapseKeepsSlugChars(s: string, inRun: bool)
    requires forall i :: 0 <= i < |s| ==> IsSlugChar(s[i])
    ensures forall i :: 0 <= i < |RunsToDash(s, IsDash, inRun)| ==> IsSlugChar(RunsToDash(s, IsDash, inRun)[i])
    decreases |s|
  {
    if s != [] {
      CollapseKeepsSlugChars(s[1..], true);
      CollapseKeepsSlugChars(s[1..], false);
    }
  }

  /** Every output of `slugify` is a slug: only `a-z`, `0-9`, `_` and `-`
      (so no whitespace), no `--`, and no `-` at either end. */
  lemma SlugifyGivesSlug(text: string)
    ensures IsSlug(Slugify(text))
  {
    var lowered := Lower(text);
    var dashed := RunsToDash(lowered, IsSpace, false);
    var words := KeepWordChars(dashed);
    var single := RunsToDash(words, IsDash, false);
    LowerHasNoUpper(text);
    RunsToDashKeeps(lowered, IsSpace, false);
    KeepWordCharsGivesSlugChars(dashed);
    CollapseKeepsSlugChars(words, false);
    CollapsedHasNoDoubleDash(words, false);
    TrimmedIsSlug(single);
  }

  /** Trimming the dashes at both ends of slug characters without `--`
      gives a slug. */
  lemma TrimmedIsSlug(single: string)
    requires forall i :: 0 <= i < |single| ==> IsSlugChar(single[i])
    requires NoDoubleDash(single)
    ensures IsSlug(TrimTrailingDashes(TrimLeadingDashes(single)))
  {
    var front := TrimLeadingDashes(single);
    LeadingTrimKeepsSlugChars(single);
    var r := TrimTrailingDashes(front);
    TrailingTrimKeepsSlugChars(front);
    if r != [] {
      assert r[0] == front[0];
    }
  }

  lemma LeadingTrimKeepsSlugChars(s: string)
    requires forall i :: 0 <= i < |s| ==> IsSlugChar(s[i])
    requires NoDoubleDash(s)
    ensures forall i :: 0 <= i < |TrimLeadingDashes(s)| ==> IsSlugChar(TrimLeadingDashes(s)[i])
    ensures NoDoubleDash(TrimLeadingDashes(s))
  {
    var r := TrimLeadingDashes(s);
    SliceKeepsSlugChars(s, |s| - |r|, |s|);
    assert s[|s| - |r|..|s|] == r;
  }

  lemma TrailingTrimKeepsSlugChars(s: string)
    requires forall i :: 0 <= i < |s| ==> IsSlugChar(s[i])
    requires NoDoubleDash(s)
    ensures forall i :: 0 <= i < |TrimTrailingDashes(s)| ==> IsSlugChar(TrimTrailingDashes(s)[i])
    ensures NoDoubleDash(TrimTrailingDashes(s))
  {
    var r := TrimTrailingDashes(s);
    SliceKeepsSlugChars(s, 0, |r|);
    assert s[0..|r|] == r;
  }

  /** A piece of a string keeps its slug characters and has no `--` if the
      string has none. */
  lemma SliceKeepsSlugChars(s: string, a: nat, b: nat)
    requires a <= b <= |s|
    requires forall i :: 0 <= i < |s| ==> IsSlugChar(s[i])
    requires NoDoubleDash(s)
    ensures forall i :: 0 <= i < b - a ==> IsSlugChar(s[a..b][i])
    ensures NoDoubleDash(s[a..b])
  {
    forall i | 0 <= i < b - a - 1
      ensures !(s[a..b][i] == '-' && s[a..b][i + 1] == '-')
    {
      assert s[a..b][i] == s[a + i] && s[a..b][i + 1] == s[a + i + 1];
    }
  }

  /* ---- Idempotence ---- */

  lemma {:induction false} LowerOfLower(s: string)
    requires NoUpper(s)
    ensures Lower(s) == s
    decreases |s|
  {
    if s != [] {
      LowerOfLower(s[1..]);
    }
  }

  /** A string with no character of the class passes unchanged. */
  lemma {:induction false} RunsToDashOfNone(s: string, inClass: char -> bool, inRun: bool)
    requires forall i :: 0 <= i < |s| ==> !inClass(s[i])
    ensures RunsToDash(s, inClass, inRun) == s
    decreases |s|
  {
    if s != [] {
      RunsToDashOfNone(s[1..], inClass, false);
    }
  }

  lemma {:induction false} KeepWordCharsOfWords(s: string)
    requires forall i :: 0 <= i < |s| ==> IsWordOrDash(s[i])
    ensures KeepWordChars(s) == s
    decreases |s|
  {
    if s != [] {
      KeepWordCharsOfWords(s[1..]);
    }
  }

  /** Without `--`, collapsing dash runs changes nothing (provided a dash
      does not follow a dash already seen). */
  lemma {:induction false} CollapseOfSingleDashes(s: string, inRun: bool)
    requires NoDoubleDash(s)
    requires inRun ==> s == [] || s[0] != '-'
    ensures RunsToDash(s, IsDash, inRun) == s
    decreases |s|
  {
    if s != [] {
      CollapseOfSingleDashes(s[1..], s[0] == '-');
    }
  }

  /** A slug comes out of `slugify` unchanged. */
  lemma SlugifyOfSlug(s: string)
    requires IsSlug(s)
    ensures Slugify(s) == s
  {
    LowerOfLower(s);
    RunsToDashOfNone(s, IsSpace, false);
    KeepWordCharsOfWords(s);
    CollapseOfSingleDashes(s, false);
  }

  /** `slugify(slugify(s)) == slugify(s)`. */
  lemma SlugifyIdempotent(text: string)
    ensures Slugify(Slugify(text)) == Slugify(text)
  {
    SlugifyGivesSlug(text);
    SlugifyOfSlug(Slugify(text));
  }

  /* ---- The page's names and links ---- */

  datatype Integration = Integration(name: string, description: string, connected: bool)

  datatype ToolSet = ToolSet(name: string, description: string, status: string, action: string)

  const Integrations: seq<Integration> := [
    Integration("Integración Boe", "API personalizada para operaciones internas y flujos de trabajo automatizados.", true),
    Integration("Slack", "Envía notificaciones y alertas directamente a los canales de tu equipo.", true),
    Integration("Zendesk", "Sincroniza conversaciones y tickets con tu plataforma de soporte al cliente.", false)
  ]

  const ToolSets: seq<ToolSet> := [
    ToolSet("Boe tools", "A collection of tools to interact with the Boe API, including user management and order processing.", "Installed", "Configure"),
    ToolSet("Search internet tool", "A powerful tool to perform web searches and get up-to-date information from the internet.", "Available", "Install")
  ]

  /** The card's link: only a connected integration gets one. */
  function IntegrationLink(i: Integration): (link: Option<string>)
    ensures link.Some? <==> i.connected
    ensures link.Some? ==> link.value == "/apis-and-tools/api/" + Slugify(i.name)
  {
    if i.connected then Some("/apis-and-tools/api/" + Slugify(i.name)) else None
  }

  /** A tool set's link. */
  function ToolSetLink(t: ToolSet): (link: string)
    ensures link == "/tools/" + Slugify(t.name)
    ensures |link| >= 7 && link[..7] == "/tools/" && IsSlug(link[7..])
  {
    var slug := Slugify(t.name);
    SlugifyGivesSlug(t.name);
    assert ("/tools/" + slug)[7..] == slug;
    "/tools/" + slug
  }

  /* ---- Names made of words ---- */

  /** A word of a display name: not empty, no whitespace, no `-`, and at
      least one character survives the non-word pass. */
  predicate IsPlainWord(w: string)
  {
    w != [] && (forall i :: 0 <= i < |w| ==> !IsSpace(w[i]) && w[i] != '-')
    && KeepWordChars(Lower(w)) != []
  }

  /** What `slugify` makes of each word on its own. */
  function SlugWords(ws: seq<string>): (r: seq<string>)
    ensures |r| == |ws|
    decreases |ws|
  {
    if ws == [] then [] else [KeepWordChars(Lower(ws[0]))] + SlugWords(ws[1..])
  }

  function LowerWords(ws: seq<string>): (r: seq<string>)
    ensures |r| == |ws|
    decreases |ws|
  {
    if ws == [] then [] else [Lower(ws[0])] + LowerWords(ws[1..])
  }

  lemma LowerConcat(a: string, b: string)
    ensures Lower(a + b) == Lower(a) + Lower(b)
  {
    assert forall i :: 0 <= i < |a + b| ==> Lower(a + b)[i] == (Lower(a) + Lower(b))[i];
  }

  lemma {:induction false} KeepWordCharsConcat(a: string, b: string)
    ensures KeepWordChars(a + b) == KeepWordChars(a) + KeepWordChars(b)
    decreases |a|
  {
    if a != [] {
      assert (a + b)[0] == a[0] && (a + b)[1..] == a[1..] + b;
      KeepWordCharsConcat(a[1..], b);
      var head := if IsWordOrDash(a[0]) then [a[0]] else [];
      assert KeepWordChars(a + b) == head + KeepWordChars(a[1..] + b);
      assert KeepWordChars(a) == head + KeepWordChars(a[1..]);
    } else {
      assert a + b == b;
    }
  }

  /** The run pass works piece by piece: the second piece starts "in a run"
      exactly when the first ends with a class character. */
  lemma {:induction false} RunsToDashConcat(a: string, b: string, inClass: char -> bool, inRun: bool)
    requires a != []
    ensures RunsToDash(a + b, inClass, inRun) ==
            RunsToDash(a, inClass, inRun) + RunsToDash(b, inClass, inClass(a[|a| - 1]))
    decreases |a|
  {
    assert (a + b)[1..] == a[1..] + b;
    if |a| > 1 {
      RunsToDashConcat(a[1..], b, inClass, inClass(a[0]));
    }
  }

  /** The space pass on words joined by single spaces joins the lower-cased
      words with `-`. */
  lemma {:induction false} SpacesStage(ws: seq<string>, inRun: bool)
    requires |ws| >= 1 && forall i :: 0 <= i < |ws| ==> IsPlainWord(ws[i])
    ensures RunsToDash(Lower(Join(ws, " ")), IsSpace, inRun) == Join(LowerWords(ws), "-")
    decreases |ws|
  {
    var lw := Lower(ws[0]);
    LoweredWordHasNoSpace(ws[0]);
    RunsToDashOfNone(lw, IsSpace, inRun);
    if |ws| > 1 {
      var rest := ws[1..];
      var lj := Lower(Join(rest, " "));
      SpacesStage(rest, true);
      assert LowerWords(ws)[1..] == LowerWords(rest);
      SpaceStep(ws[0], Join(rest, " "), inRun);
      assert RunsToDash(lj, IsSpace, true) == Join(LowerWords(rest), "-");
    }
  }

  lemma LoweredWordHasNoSpace(w: string)
    requires forall i :: 0 <= i < |w| ==> !IsSpace(w[i])
    ensures forall i :: 0 <= i < |Lower(w)| ==> !IsSpace(Lower(w)[i])
  {
  }

  /** One word, one space, and the rest. */
  lemma SpaceStep(w: string, j: string, inRun: bool)
    requires w != [] && forall i :: 0 <= i < |w| ==> !IsSpace(w[i])
    ensures RunsToDash(Lower(w + " " + j), IsSpace, inRun) ==
            RunsToDash(Lower(w), IsSpace, inRun) + "-" + RunsToDash(Lower(j), IsSpace, true)
  {
    LowerAroundSpace(w, j);
    LoweredWordHasNoSpace(w);
    assert !IsSpace(Lower(w)[|Lower(w)| - 1]);
    RunsToDashConcat(Lower(w), " " + Lower(j), IsSpace, inRun);
    SpaceOpensRun(Lower(j));
    Assoc(RunsToDash(Lower(w), IsSpace, inRun), "-", RunsToDash(Lower(j), IsSpace, true));
  }

  lemma LowerAroundSpace(w: string, j: string)
    ensures Lower(w + " " + j) == Lower(w) + (" " + Lower(j))
  {
    LowerConcat(w, " " + j);
    LowerConcat(" ", j);
    assert Lower(" ") == " ";
    assert w + " " + j == w + (" " + j);
  }

  /** A space after a word starts a run: one `-`. */
  lemma SpaceOpensRun(x: string)
    ensures RunsToDash(" " + x, IsSpace, false) == "-" + RunsToDash(x, IsSpace, true)
  {
    assert (" " + x)[1..] == x;
  }

  /** The non-word pass on `-`-joined pieces cleans each piece. */
  lemma {:induction false} WordsStage(ws: seq<string>)
    requires |ws| >= 1
    ensures KeepWordChars(Join(LowerWords(ws), "-")) == Join(SlugWords(ws), "-")
    decreases |ws|
  {
    if |ws| > 1 {
      var j := Join(LowerWords(ws[1..]), "-");
      LowerWordsCons(ws);
      WordsStep(Lower(ws[0]), j);
      WordsStage(ws[1..]);
      SlugWordsCons(ws);
    }
  }

  lemma LowerWordsCons(ws: seq<string>)
    requires |ws| > 1
    ensures Join(LowerWords(ws), "-") == Lower(ws[0]) + "-" + Join(LowerWords(ws[1..]), "-")
  {
    assert LowerWords(ws)[1..] == LowerWords(ws[1..]);
  }

  lemma SlugWordsCons(ws: seq<string>)
    requires |ws| > 1
    ensures Join(SlugWords(ws), "-") == KeepWordChars(Lower(ws[0])) + "-" + Join(SlugWords(ws[1..]), "-")
  {
    assert SlugWords(ws)[1..] == SlugWords(ws[1..]);
  }

  /** The non-word pass keeps the `-` between two pieces. */
  lemma WordsStep(w: string, j: string)
    ensures KeepWordChars(w + "-" + j) == KeepWordChars(w) + "-" + KeepWordChars(j)
  {
    assert w + "-" + j == w + ("-" + j);
    KeepWordCharsConcat(w, "-" + j);
    KeepWordCharsConcat("-", j);
    assert KeepWordChars("-") == "-";
  }

  /** Words without `-` joined by single dashes pass the dash pass unchanged. */
  lemma {:induction false} DashStage(ks: seq<string>, inRun: bool)
    requires |ks| >= 1
    requires forall i :: 0 <= i < |ks| ==> IsDashFreeWord(ks[i])
    ensures RunsToDash(Join(ks, "-"), IsDash, inRun) == Join(ks, "-")
    ensures Join(ks, "-") != [] && Join(ks, "-")[0] != '-' && Join(ks, "-")[|Join(ks, "-")| - 1] != '-'
    decreases |ks|
  {
    RunsToDashOfNone(ks[0], IsDash, inRun);
    if |ks| > 1 {
      var j := Join(ks[1..], "-");
      DashStage(ks[1..], true);
      DashStep(ks[0], j, inRun);
      assert Join(ks, "-") == ks[0] + "-" + j;
    }
  }

  /** One dash-free word, one dash, and a rest that starts with no dash. */
  lemma DashStep(k: string, j: string, inRun: bool)
    requires IsDashFreeWord(k)
    requires j != [] && j[0] != '-' && j[|j| - 1] != '-'
    requires RunsToDash(j, IsDash, true) == j
    ensures RunsToDash(k + "-" + j, IsDash, inRun) == k + "-" + j
    ensures (k + "-" + j)[0] != '-' && (k + "-" + j)[|k + "-" + j| - 1] != '-'
  {
    RunsToDashOfNone(k, IsDash, inRun);
    assert k + "-" + j == k + ("-" + j);
    RunsToDashConcat(k, "-" + j, IsDash, inRun);
    assert ("-" + j)[1..] == j;
  }

  /** The cleaned form of a word has no `-`. */
  lemma {:induction false} KeepWordCharsNoDash(s: string)
    requires forall i :: 0 <= i < |s| ==> s[i] != '-'
    ensures forall i :: 0 <= i < |KeepWordChars(s)| ==> KeepWordChars(s)[i] != '-'
    decreases |s|
  {
    if s != [] {
      KeepWordCharsNoDash(s[1..]);
    }
  }

  /** A name made of words separated by single spaces becomes its cleaned,
      lower-cased words joined by `-`. */
  lemma SlugifyWords(ws: seq<string>)
    requires |ws| >= 1 && forall i :: 0 <= i < |ws| ==> IsPlainWord(ws[i])
    ensures Slugify(Join(ws, " ")) == Join(SlugWords(ws), "-")
  {
    SpacesStage(ws, false);
    WordsStage(ws);
    var ks := SlugWords(ws);
    SlugWordsAreDashFree(ws);
    DashStage(ks, false);
    var j := Join(ks, "-");
    assert TrimLeadingDashes(j) == j;
    assert TrimTrailingDashes(j) == j;
  }

  predicate IsDashFreeWord(k: string)
  {
    k != [] && forall m :: 0 <= m < |k| ==> k[m] != '-'
  }

  lemma SlugWordsAreDashFree(ws: seq<string>)
    requires forall i :: 0 <= i < |ws| ==> IsPlainWord(ws[i])
    ensures forall i :: 0 <= i < |ws| ==> IsDashFreeWord(SlugWords(ws)[i])
  {
    forall i | 0 <= i < |ws|
      ensures IsDashFreeWord(SlugWords(ws)[i])
    {
      SlugWordAt(ws, i);
      KeepWordCharsNoDash(Lower(ws[i]));
    }
  }

  lemma {:induction false} SlugWordAt(ws: seq<string>, i: nat)
    requires i < |ws|
    ensures SlugWords(ws)[i] == KeepWordChars(Lower(ws[i]))
    decreases i
  {
    if i > 0 {
      SlugWordAt(ws[1..], i - 1);
    }
  }

  /** A word of lower-case letters is its own slug. */
  lemma LowerWordSlug(w: string)
    requires w != [] && forall i :: 0 <= i < |w| ==> IsAsciiLower(w[i])
    ensures IsPlainWord(w) && KeepWordChars(Lower(w)) == w
  {
    LowerOfLower(w);
    KeepWordCharsOfWords(w);
    LettersArePlain(w);
    assert KeepWordChars(Lower(w)) == w;
  }

  /** A capitalised word's slug is the word with its capital lowered. */
  lemma CapitalWordSlug(c: char, rest: string)
    requires IsAsciiUpper(c) && forall i :: 0 <= i < |rest| ==> IsAsciiLower(rest[i])
    ensures IsPlainWord([c] + rest) && KeepWordChars(Lower([c] + rest)) == [LowerChar(c)] + rest
  {
    LowerCapital(c, rest);
    KeepLoweredCapital(c, rest);
    LettersArePlain([c] + rest);
  }

  lemma LowerCapital(c: char, rest: string)
    requires forall i :: 0 <= i < |rest| ==> IsAsciiLower(rest[i])
    ensures Lower([c] + rest) == [LowerChar(c)] + rest
  {
    LowerConcat([c], rest);
    LowerOfLower(rest);
    assert Lower([c]) == [LowerChar(c)];
  }

  lemma KeepLoweredCapital(c: char, rest: string)
    requires IsAsciiUpper(c) && forall i :: 0 <= i < |rest| ==> IsAsciiLower(rest[i])
    ensures KeepWordChars([LowerChar(c)] + rest) == [LowerChar(c)] + rest
  {
    var lw := [LowerChar(c)] + rest;
    assert forall i :: 0 <= i < |lw| ==> IsAsciiLower(lw[i]);
    KeepWordCharsOfWords(lw);
  }

  lemma LettersArePlain(w: string)
    requires forall i :: 0 <= i < |w| ==> IsAsciiLower(w[i]) || IsAsciiUpper(w[i])
    ensures forall i :: 0 <= i < |w| ==> !IsSpace(w[i]) && w[i] != '-'
  {
  }

  lemma JoinPair(a: string, b: string, sep: string)
    ensures Join([a, b], sep) == a + sep + b
  {
    assert [a, b][1..] == [b];
  }

  lemma SlugWordsPair(a: string, b: string)
    ensures SlugWords([a, b]) == [KeepWordChars(Lower(a)), KeepWordChars(Lower(b))]
  {
    assert [a, b][1..] == [b] && [b][1..] == [];
  }

  /** Two words: the slug is the first word's slug, `-`, the second's. */
  lemma TwoWordSlug(w1: string, w2: string)
    requires IsPlainWord(w1) && IsPlainWord(w2)
    ensures Slugify(w1 + " " + w2) == KeepWordChars(Lower(w1)) + "-" + KeepWordChars(Lower(w2))
  {
    SlugWordsPair(w1, w2);
    JoinPair(w1, w2, " ");
    JoinPair(KeepWordChars(Lower(w1)), KeepWordChars(Lower(w2)), "-");
    PlainPair(w1, w2);
    SlugifyWords([w1, w2]);
  }

  lemma PlainPair(w1: string, w2: string)
    requires IsPlainWord(w1) && IsPlainWord(w2)
    ensures forall i :: 0 <= i < |[w1, w2]| ==> IsPlainWord([w1, w2][i])
  {
  }

  /** A capitalised word and a lower-case word: the capital is lowered and
      the space becomes `-`. */
  lemma CapitalPairSlug(c: char, rest: string, w2: string)
    requires IsAsciiUpper(c) && forall i :: 0 <= i < |rest| ==> IsAsciiLower(rest[i])
    requires w2 != [] && forall i :: 0 <= i < |w2| ==> IsAsciiLower(w2[i])
    ensures Slugify([c] + rest + " " + w2) == [LowerChar(c)] + rest + "-" + w2
  {
    CapitalWordSlug(c, rest);
    LowerWordSlug(w2);
    TwoWordSlug([c] + rest, w2);
  }

  /** The tool-set names give the keys of the tool-set configuration page:
      "Boe tools" becomes "boe-tools". */
  lemma BoeToolsSlug(boe: string)
    requires boe == "Boe tools"
    ensures Slugify(boe) == "boe-tools"
  {
    BoeToolsSpelling();
    CapitalPairSlug('B', "oe", "tools");
    assert LowerChar('B') == 'b';
  }

  lemma BoeToolsSpelling()
    ensures ['B'] + "oe" + " " + "tools" == "Boe tools"
    ensures ['b'] + "oe" + "-" + "tools" == "boe-tools"
  {
  }

  /** A capitalised word with one non-word character inside it (such as an
      accented letter): the capital is lowered and that character dropped. */
  lemma AccentedWordSlug(c: char, a: string, x: char, b: string)
    requires IsAsciiUpper(c) && !IsWordOrDash(x) && !IsSpace(x) && !IsAsciiUpper(x)
    requires forall i :: 0 <= i < |a| ==> IsAsciiLower(a[i])
    requires forall i :: 0 <= i < |b| ==> IsAsciiLower(b[i])
    ensures IsPlainWord([c] + a + ([x] + b))
    ensures KeepWordChars(Lower([c] + a + ([x] + b))) == [LowerChar(c)] + a + b
  {
    LowerAccented(c, a, x, b);
    KeepAccented(LowerChar(c), a, x, b);
    AccentedHasNoSpace(c, a, x, b);
  }

  lemma LowerAccented(c: char, a: string, x: char, b: string)
    requires !IsAsciiUpper(x)
    requires forall i :: 0 <= i < |a| ==> IsAsciiLower(a[i])
    requires forall i :: 0 <= i < |b| ==> IsAsciiLower(b[i])
    ensures Lower([c] + a + ([x] + b)) == [LowerChar(c)] + a + ([x] + b)
  {
    LowerConcat([c] + a, [x] + b);
    LowerCapital(c, a);
    LowerCapital(x, b);
  }

  lemma KeepAccented(d: char, a: string, x: char, b: string)
    requires IsAsciiLower(d) && !IsWordOrDash(x)
    requires forall i :: 0 <= i < |a| ==> IsAsciiLower(a[i])
    requires forall i :: 0 <= i < |b| ==> IsAsciiLower(b[i])
    ensures KeepWordChars([d] + a + ([x] + b)) == [d] + a + b
  {
    KeepWordCharsConcat([d] + a, [x] + b);
    KeepLowerLetters([d] + a);
    KeepDropsHead(x, b);
    KeepLowerLetters(b);
  }

  lemma KeepLowerLetters(s: string)
    requires forall i :: 0 <= i < |s| ==> IsAsciiLower(s[i])
    ensures KeepWordChars(s) == s
  {
    KeepWordCharsOfWords(s);
  }

  lemma KeepDropsHead(x: char, b: string)
    requires !IsWordOrDash(x)
    ensures KeepWordChars([x] + b) == KeepWordChars(b)
  {
    assert ([x] + b)[1..] == b;
  }

  lemma AccentedHasNoSpace(c: char, a: string, x: char, b: string)
    requires IsAsciiUpper(c) && !IsSpace(x) && x != '-'
    requires forall i :: 0 <= i < |a| ==> IsAsciiLower(a[i])
    requires forall i :: 0 <= i < |b| ==> IsAsciiLower(b[i])
    ensures forall i :: 0 <= i < |[c] + a + ([x] + b)| ==> !IsSpace(([c] + a + ([x] + b))[i]) && ([c] + a + ([x] + b))[i] != '-'
  {
    var w := [c] + a + ([x] + b);
    forall i | 0 <= i < |w|
      ensures !IsSpace(w[i]) && w[i] != '-'
    {
      if i == 0 {
      } else if i <= |a| {
        assert w[i] == a[i - 1];
      } else if i == |a| + 1 {
      } else {
        assert w[i] == b[i - |a| - 2];
      }
    }
  }

  /** An accented capitalised word and a capitalised word: the capitals
      are lowered, the accented letter is dropped and the space becomes `-`. */
  lemma AccentedPairSlug(c: char, a: string, x: char, b: string, d: char, e: string)
    requires IsAsciiUpper(c) && !IsWordOrDash(x) && !IsSpace(x) && !IsAsciiUpper(x)
    requires forall i :: 0 <= i < |a| ==> IsAsciiLower(a[i])
    requires forall i :: 0 <= i < |b| ==> IsAsciiLower(b[i])
    requires IsAsciiUpper(d) && forall i :: 0 <= i < |e| ==> IsAsciiLower(e[i])
    ensures Slugify([c] + a + ([x] + b) + " " + ([d] + e)) == [LowerChar(c)] + a + b + "-" + ([LowerChar(d)] + e)
  {
    AccentedWordSlug(c, a, x, b);
    CapitalWordSlug(d, e);
    TwoWordSlug([c] + a + ([x] + b), [d] + e);
  }

  /** `\w` is ASCII-only, so the accented letter of "Integración Boe" is
      dropped: its link slug is "integracin-boe". */
  lemma IntegracionBoeSlug(name: string)
    requires name == "Integración Boe"
    ensures Slugify(name) == "integracin-boe"
  {
    IntegracionBoeSpelling();
    AccentedPairSlug('I', "ntegraci", 'ó', "n", 'B', "oe");
    assert LowerChar('I') == 'i' && LowerChar('B') == 'b';
  }

  lemma IntegracionBoeSpelling()
    ensures ['I'] + "ntegraci" + (['ó'] + "n") + " " + (['B'] + "oe") == "Integración Boe"
    ensures ['i'] + "ntegraci" + "n" + "-" + (['b'] + "oe") == "integracin-boe"
  {
  }

  lemma JoinTriple(a: string, b: string, c: string, sep: string)
    ensures Join([a, b, c], sep) == a + sep + b + sep + c
  {
    assert [a, b, c][1..] == [b, c];
    JoinPair(b, c, sep);
  }

  lemma SlugWordsTriple(a: string, b: string, c: string)
    ensures SlugWords([a, b, c]) == [KeepWordChars(Lower(a)), KeepWordChars(Lower(b)), KeepWordChars(Lower(c))]
  {
    assert [a, b, c][1..] == [b, c];
    SlugWordsPair(b, c);
  }

  /** Three words: the slugs of the words joined by `-`. */
  lemma ThreeWordSlug(w1: string, w2: string, w3: string)
    requires IsPlainWord(w1) && IsPlainWord(w2) && IsPlainWord(w3)
    ensures Slugify(w1 + " " + w2 + " " + w3)
            == KeepWordChars(Lower(w1)) + "-" + KeepWordChars(Lower(w2)) + "-" + KeepWordChars(Lower(w3))
  {
    var ws := [w1, w2, w3];
    assert forall i :: 0 <= i < |ws| ==> IsPlainWord(ws[i]);
    SlugWordsTriple(w1, w2, w3);
    JoinTriple(w1, w2, w3, " ");
    JoinTriple(KeepWordChars(Lower(w1)), KeepWordChars(Lower(w2)), KeepWordChars(Lower(w3)), "-");
    SlugifyWords(ws);
  }

  /** A capitalised word and two lower-case words: the capital is lowered
      and each space becomes `-`. */
  lemma CapitalTripleSlug(c: char, rest: string, w2: string, w3: string)
    requires IsAsciiUpper(c) && forall i :: 0 <= i < |rest| ==> IsAsciiLower(rest[i])
    requires w2 != [] && forall i :: 0 <= i < |w2| ==> IsAsciiLower(w2[i])
    requires w3 != [] && forall i :: 0 <= i < |w3| ==> IsAsciiLower(w3[i])
    ensures Slugify([c] + rest + " " + w2 + " " + w3) == [LowerChar(c)] + rest + "-" + w2 + "-" + w3
  {
    CapitalWordSlug(c, rest);
    LowerWordSlug(w2);
    LowerWordSlug(w3);
    ThreeWordSlug([c] + rest, w2, w3);
  }

  /** "Search internet tool" becomes "search-internet-tool". */
  lemma SearchInternetToolSlug(search: string)
    requires search == "Search internet tool"
    ensures Slugify(search) == "search-internet-tool"
  {
    SearchInternetToolSpelling();
    CapitalTripleSlug('S', "earch", "internet", "tool");
    assert LowerChar('S') == 's';
  }

  lemma SearchInternetToolSpelling()
    ensures ['S'] + "earch" + " " + "internet" + " " + "tool" == "Search internet tool"
    ensures ['s'] + "earch" + "-" + "internet" + "-" + "tool" == "search-internet-tool"
  {
  }
}
