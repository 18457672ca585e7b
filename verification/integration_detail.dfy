/**
 * The integration placeholder page (src/pages/IntegrationDetail.tsx): the
 * `:integrationName` route parameter turned back into a display name by
 * `formatDisplayName`, which splits at `-`, capitalises each piece and joins
 * the pieces with spaces.
 */
module IntegrationDetail {
  import opened Common
  import opened Text

  /** `word.charAt(0).toUpperCase() + word.slice(1)`. */
  function Capitalize(w: string): (r: string)
    ensures |r| == |w|
    ensures w != [] ==> r[0] == UpperChar(w[0]) && r[1..] == w[1..]
    ensures w == [] ==> r == []
  {
    if w == [] then [] else [UpperChar(w[0])] + w[1..]
  }

  function CapitalizeAll(parts: seq<string>): (r: seq<string>)
    ensures |r| == |parts|
    ensures forall j :: 0 <= j < |parts| ==> r[j] == Capitalize(parts[j])
    decreases |parts|
  {
    if parts == [] then [] else [Capitalize(parts[0])] + CapitalizeAll(parts[1..])
  }

  /** `slug.split('-').map(capitalise).join(' ')`. */
  function DisplayName(slug: string): (name: string)
    ensures '-' !in slug ==> name == Capitalize(slug)
  {
    Join(CapitalizeAll(Split(slug, '-')), " ")
  }

  /** `formatDisplayName`: a missing route parameter counts as `''`. */
  function FormatDisplayName(slug: Option<string>): (r: string)
    ensures slug.None? ==> r == ""
  {
    DisplayNameOfEmpty();
    DisplayName(if slug.Some? then slug.value else "")
  }

  lemma DisplayNameOfEmpty()
    ensures DisplayName("") == ""
  {
    assert '-' !in "";
  }

  /** The character the display name holds at position `i`. */
  function DisplayChar(slug: string, i: nat): char
    requires i < |slug|
  {
    if slug[i] == '-' then ' '
    else if i == 0 || slug[i - 1] == '-' then UpperChar(slug[i])
    else slug[i]
  }

  /** The display name, character by character: the same length as the
      slug; every `-` becomes a space; the first character and every
      character right after a `-` is upper-cased; all others are kept. So
      empty pieces stay empty (`a--b` gives `A  B`) and no `-` is left. */
  lemma {:induction false} DisplayNamePointwise(slug: string)
    ensures |DisplayName(slug)| == |slug|
    ensures forall i :: 0 <= i < |slug| ==> DisplayName(slug)[i] == DisplayChar(slug, i)
    decreases |slug|
  {
    if '-' !in slug {
      assert Split(slug, '-') == [slug];
      assert CapitalizeAll([slug]) == [Capitalize(slug)];
    } else {
      var k := FirstIndex(slug, '-');
      var tail := slug[k + 1..];
      DisplayNamePointwise(tail);
      var rest := Split(tail, '-');
      assert Split(slug, '-') == [slug[..k]] + rest;
      assert CapitalizeAll([slug[..k]] + rest) == [Capitalize(slug[..k])] + CapitalizeAll(rest);
      PieceStep(slug, k, Capitalize(slug[..k]), DisplayName(tail));
    }
  }

  /** One step of the split: the first piece, a space, the rest. */
  lemma PieceStep(slug: string, k: nat, head: string, tailName: string)
    requires k < |slug| && slug[k] == '-' && '-' !in slug[..k]
    requires head == Capitalize(slug[..k])
    requires |tailName| == |slug| - k - 1
    requires forall i :: 0 <= i < |slug| - k - 1 ==> tailName[i] == DisplayChar(slug[k + 1..], i)
    ensures |head + " " + tailName| == |slug|
    ensures forall i :: 0 <= i < |slug| ==> (head + " " + tailName)[i] == DisplayChar(slug, i)
  {
    var r := head + " " + tailName;
    forall i | 0 <= i < |slug|
      ensures r[i] == DisplayChar(slug, i)
    {
      if i < k {
        assert slug[..k][i] == slug[i];
        if i > 0 {
          assert slug[..k][i - 1] == slug[i - 1];
        }
      } else if i > k {
        assert slug[k + 1..][i - k - 1] == slug[i];
        if i > k + 1 {
          assert slug[k + 1..][i - k - 2] == slug[i - 1];
        }
      }
    }
  }

  /** No `-` is left in a display name. */
  lemma DisplayNameHasNoDash(slug: string)
    ensures '-' !in DisplayName(slug)
  {
    DisplayNamePointwise(slug);
    var r := DisplayName(slug);
    forall i | 0 <= i < |r|
      ensures r[i] != '-'
    {
      assert r[i] == DisplayChar(slug, i);
    }
  }

  /** A piece without `-`, a `-`, and the rest: the capitalised piece, a
      space, and the rest's display name. */
  lemma DisplayNameCons(a: string, b: string)
    requires '-' !in a
    ensures DisplayName(a + "-" + b) == Capitalize(a) + " " + DisplayName(b)
  {
    var s := a + "-" + b;
    assert s[|a|] == '-' && s[..|a|] == a && s[|a| + 1..] == b;
    var k := FirstIndex(s, '-');
    assert forall i :: 0 <= i < |a| ==> s[i] == a[i];
    assert k == |a|;
    var rest := Split(b, '-');
    assert Split(s, '-') == [a] + rest;
    assert CapitalizeAll([a] + rest) == [Capitalize(a)] + CapitalizeAll(rest);
  }

  /** The slug the integrations page links the Boe integration to,
      `integracin-boe`, reads back as `Integracin Boe`: the accented letter
      lost by the slug does not come back. */
  lemma BoeDisplayName(first: string, second: string)
    requires first == "integracin" && second == "boe"
    ensures DisplayName(first + "-" + second) == "Integracin" + " " + "Boe"
  {
    DisplayNameCons(first, second);
    assert Split(second, '-') == [second];
    assert CapitalizeAll([second]) == [Capitalize(second)];
  }
}
