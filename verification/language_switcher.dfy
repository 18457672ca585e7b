/**
 * The language menu in the header (src/components/layout/LanguageSwitcher.tsx):
 * the four offered languages, the language code taken from the active
 * language tag, and the flag shown for it. Switching language goes through
 * the translation library and is not part of this model.
 */
module LanguageSwitcher {
  import opened Common
  import opened Text

  datatype Flag = USFlag | ESFlag | DEFlag | BRFlag

  datatype LanguageOption = LanguageOption(value: string, caption: string, icon: Flag)

  /** `languageOptions`, in menu order. */
  const LanguageOptions: seq<LanguageOption> := [
    LanguageOption("en", "English", USFlag),
    LanguageOption("es", "Español", ESFlag),
    LanguageOption("de", "Deutsch", DEFlag),
    LanguageOption("pt", "Português", BRFlag)
  ]

  /** `tag.split('-')[0]`: the longest start of the tag without a `-`. */
  function CurrentLanguage(tag: string): (code: string)
    ensures code <= tag && '-' !in code
    ensures '-' !in tag ==> code == tag
    ensures '-' in tag ==> |code| < |tag| && tag[|code|] == '-'
  {
    Split(tag, '-')[0]
  }

  /** A regional tag (`es-ES`) gives its language part. */
  lemma RegionalTagGivesLanguage(code: string, region: string)
    requires '-' !in code
    ensures CurrentLanguage(code + "-" + region) == code
  {
    var tag := code + "-" + region;
    var c := CurrentLanguage(tag);
    assert tag[|code|] == '-';
    assert forall i :: 0 <= i < |code| ==> tag[i] == code[i];
    assert |c| == |code|;
    assert c == tag[..|c|];
  }

  /** `es-ES` selects Spanish. */
  lemma SpanishSpainIsSpanish(tag: string, code: string)
    requires code == LanguageOptions[1].value && tag == code + "-ES"
    ensures CurrentLanguage(tag) == code
  {
    assert code + "-ES" == code + "-" + "ES";
    RegionalTagGivesLanguage(code, "ES");
  }

  /** `options.find(o => o.value === code)`: the first option with that value. */
  function Find(options: seq<LanguageOption>, code: string): (r: Option<nat>)
    ensures r.None? <==> forall i :: 0 <= i < |options| ==> options[i].value != code
    ensures r.Some? ==> r.value < |options| && options[r.value].value == code &&
                        forall i :: 0 <= i < r.value ==> options[i].value != code
    decreases |options|
  {
    if options == [] then None
    else if options[0].value == code then Some(0)
    else
      match Find(options[1..], code)
      case None => None
      case Some(k) => Some(k + 1)
  }

  /** The flag on the menu button: the option's flag for the current
      language, the US flag when no option has that code. */
  function CurrentFlag(tag: string): (f: Flag)
    ensures (forall i :: 0 <= i < |LanguageOptions| ==> LanguageOptions[i].value != CurrentLanguage(tag)) ==> f == USFlag
  {
    match Find(LanguageOptions, CurrentLanguage(tag))
    case Some(k) => LanguageOptions[k].icon
    case None => USFlag
  }

  /** The options are English, Spanish, German and Portuguese, in that
      order, with distinct codes. */
  lemma LanguageOptionsOrder()
    ensures |LanguageOptions| == 4
    ensures LanguageOptions[0].value == "en" && LanguageOptions[1].value == "es"
    ensures LanguageOptions[2].value == "de" && LanguageOptions[3].value == "pt"
    ensures forall i, j :: 0 <= i < j < |LanguageOptions| ==> LanguageOptions[i].value != LanguageOptions[j].value
  {
  }

  /** Since the codes are distinct, a supported code shows exactly its own flag. */
  lemma SupportedCodeShowsItsFlag(tag: string, i: nat)
    requires i < |LanguageOptions| && CurrentLanguage(tag) == LanguageOptions[i].value
    ensures CurrentFlag(tag) == LanguageOptions[i].icon
  {
    LanguageOptionsOrder();
  }
}
