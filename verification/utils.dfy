/**
 * `renderTemplate` (src/lib/utils.ts): a template's example values put in for
 * its placeholders. For every key of `examples`, in key order, each `{{key}}`
 * of the text rendered so far is replaced by the key's value. A key made of
 * letters and `_` spells a regular expression that matches only the
 * placeholder itself, so each step is the literal global replace
 * `Text.ReplaceAll`.
 */
module Utils {
  import opened Common
  import opened Text
  import opened MockData
  import TemplateEditor

  /** `{{key}}`, the placeholder of a key. */
  function Placeholder(key: string): (p: string)
    ensures |p| == |key| + 4
    ensures p[..2] == "{{" && p[|p| - 2..] == "}}" && p[2..|p| - 2] == key
  {
    "{{" + key + "}}"
  }

  /** The content after the replace of the first `|examples|` keys: a left
      fold, the last key applied last. */
  function RenderedWith(content: string, examples: seq<(string, string)>): (r: string)
    ensures (forall i :: 0 <= i < |examples| ==> !Contains(content, Placeholder(examples[i].0))) ==> r == content
    decreases |examples|
  {
    if examples == [] then content
    else
      var last := examples[|examples| - 1];
      var before := RenderedWith(content, examples[..|examples| - 1]);
      var pat := Placeholder(last.0);
      // a key whose placeholder is absent leaves the text as it was
      if !Contains(before, pat) then ReplaceAllAbsent(before, pat, last.1); ReplaceAll(before, pat, last.1)
      else ReplaceAll(before, pat, last.1)
  }

  /** What `renderTemplate` returns: the content itself when `examples` is
      missing, the fold over its keys otherwise. */
  function Rendered(t: Template): (r: string)
    ensures t.examples.None? ==> r == t.content
    ensures t.examples == Some([]) ==> r == t.content
  {
    match t.examples
    case None => t.content
    case Some(examples) => RenderedWith(t.content, examples)
  }

  /** `renderTemplate`: the loop over the keys, reassigning the rendered text. */
  method RenderTemplate(t: Template) returns (out: string)
    ensures out == Rendered(t)
  {
    if t.examples.None? {
      return t.content;
    }
    var examples := t.examples.value;
    out := t.content;
    var i := 0;
    while i < |examples|
      invariant 0 <= i <= |examples|
      invariant out == RenderedWith(t.content, examples[..i])
    {
      var key := examples[i].0;
      var placeholder := Placeholder(key);
      var value := examples[i].1;
      assert examples[..i + 1][..i] == examples[..i];
      out := ReplaceAll(out, placeholder, value);
      i := i + 1;
    }
    assert examples[..i] == examples;
  }

  /** One key: every occurrence of its placeholder is replaced. The result is
      the text between the occurrences, none of which holds the placeholder,
      joined with the value. */
  lemma OneKeyReplacesEveryOccurrence(content: string, key: string, value: string)
    ensures RenderedWith(content, [(key, value)]) == Join(SplitOn(content, Placeholder(key)), value)
    ensures forall i :: 0 <= i < |SplitOn(content, Placeholder(key))| ==>
              !Contains(SplitOn(content, Placeholder(key))[i], Placeholder(key))
  {
    assert [(key, value)][..0] == [];
    ReplaceAllIsSplitJoin(content, Placeholder(key), value);
    SplitOnPiecesExcludePattern(content, Placeholder(key));
  }

  /** Content without the placeholder of any key comes back unchanged. */
  lemma {:induction false} NoPlaceholderUnchanged(content: string, examples: seq<(string, string)>)
    requires forall i :: 0 <= i < |examples| ==> !Contains(content, Placeholder(examples[i].0))
    ensures RenderedWith(content, examples) == content
    decreases |examples|
  {
    if examples != [] {
      var init := examples[..|examples| - 1];
      NoPlaceholderUnchanged(content, init);
      var last := examples[|examples| - 1];
      ReplaceAllAbsent(content, Placeholder(last.0), last.1);
    }
  }

  /** A first character that cannot start the placeholder is copied. */
  lemma CopiesLeadingChar(c: char, s: string, pat: string, v: string)
    requires pat != [] && pat[0] != c
    ensures ReplaceAll([c] + s, pat, v) == [c] + ReplaceAll(s, pat, v)
  {
    assert ([c] + s)[1..] == s;
  }

  /** With a single key the render is one global replace. */
  lemma OneKey(content: string, key: string, value: string)
    ensures RenderedWith(content, [(key, value)]) == ReplaceAll(content, Placeholder(key), value)
  {
    assert [(key, value)][..0] == [];
  }

  /** Text that starts with the placeholder has it replaced first. */
  lemma ReplaceAtHead(pat: string, rest: string, v: string)
    requires pat != []
    ensures ReplaceAll(pat + rest, pat, v) == v + ReplaceAll(rest, pat, v)
  {
    assert pat <= pat + rest;
    assert (pat + rest)[|pat|..] == rest;
  }

  /** A single character is too short to hold a placeholder. */
  lemma ShortKept(c: char, pat: string, v: string)
    requires |pat| >= 2
    ensures ReplaceAll([c], pat, v) == [c]
  {
    assert [c][1..] == [];
  }

  lemma HiAnaParts(content: string, p: string)
    requires content == "Hi {{name}}!" && p == Placeholder("name")
    ensures content == ['H'] + (['i'] + ([' '] + (p + "!")))
  {
  }

  lemma HiAnaText()
    ensures ['H'] + (['i'] + ([' '] + ("Ana" + "!"))) == "Hi Ana!"
  {
  }

  /** `"Hi {{name}}!"` with the name `Ana` renders as `"Hi Ana!"`. */
  lemma HiAna(content: string)
    requires content == "Hi {{name}}!"
    ensures RenderedWith(content, [("name", "Ana")]) == "Hi Ana!"
  {
    var p := Placeholder("name");
    OneKey(content, "name", "Ana");
    HiAnaParts(content, p);
    ReplaceAtHead(p, "!", "Ana");
    ShortKept('!', p, "Ana");
    CopiesLeadingChar(' ', p + "!", p, "Ana");
    CopiesLeadingChar('i', [' '] + (p + "!"), p, "Ana");
    CopiesLeadingChar('H', ['i'] + ([' '] + (p + "!")), p, "Ana");
    HiAnaText();
  }

  /** A placeholder whose key has no example is left as it is. */
  lemma AbsentKeyKept(content: string)
    requires content == "{{name}}{{id}}"
    ensures RenderedWith(content, [("name", "Ana")]) == "Ana{{id}}"
  {
    var p := Placeholder("name");
    var q := Placeholder("id");
    assert [("name", "Ana")][..0] == [];
    assert content == p + q;
    assert !(p <= q);
    assert !Contains(q, p);
    ReplaceAllAbsent(q, p, "Ana");
    assert ReplaceAll(p + q, p, "Ana") == "Ana" + ReplaceAll(q, p, "Ana");
  }

  /** The keys are applied one after another: a value that holds another
      key's placeholder is rewritten when that key comes later. The editor's
      live preview makes one pass and shows such a value as it is. */
  lemma LaterKeyRewritesEarlierValue(content: string)
    requires content == "{{a}}"
    ensures RenderedWith(content, [("a", "{{b}}"), ("b", "x")]) == "x"
    ensures TemplateEditor.Preview(content, map["a" := "{{b}}", "b" := "x"]) == "{{b}}"
  {
    var values := map["a" := "{{b}}", "b" := "x"];
    TwoKeys(content, ("a", "{{b}}"), ("b", "x"));
    ChainedPlaceholders(content);
    ReplaceWhole(Placeholder("a"), "{{b}}");
    ReplaceWhole(Placeholder("b"), "x");
    TemplateEditor.PreviewIsSinglePass("", "a", "", values);
    EmptyEnds("{{b}}");
  }

  /** With two keys the render is two global replaces, the first key first. */
  lemma TwoKeys(content: string, first: (string, string), second: (string, string))
    ensures RenderedWith(content, [first, second])
         == ReplaceAll(ReplaceAll(content, Placeholder(first.0), first.1), Placeholder(second.0), second.1)
  {
    assert [first, second][..1] == [first];
    OneKey(content, first.0, first.1);
  }

  lemma ChainedPlaceholders(content: string)
    requires content == "{{a}}"
    ensures content == Placeholder("a") && "{{b}}" == Placeholder("b")
    ensures content == "" + ("{{" + "a" + "}}" + "")
  {
  }

  /** Text that is exactly the placeholder becomes the value. */
  lemma ReplaceWhole(p: string, v: string)
    requires p != []
    ensures ReplaceAll(p, p, v) == v
  {
    ReplaceAtHead(p, "", v);
    assert p + "" == p && v + "" == v;
  }

  lemma EmptyEnds(x: string)
    ensures "" + x + "" == x
  {
  }
}
