/**
 * The message-template gallery (src/pages/Templates.tsx): five template
 * cards and a search over their names. The previews mark variable parts
 * with square brackets, not with the `{{name}}` tokens of the template
 * editor.
 */
module Templates {
  import opened Common
  import opened Text
  import TemplateEditor

  datatype TemplateCard = TemplateCard(
    name: string, version: string, reachedUsers: nat, responseRate: nat,
    language: string, preview: string)

  /* The five previews, each cut into short pieces so that facts about
     their characters stay cheap to check. */

  const Promo1: string := "¡Hola, [nombre]! \U{1F389} No te "
  const Promo2: string := "pierdas nuestras ofertas de mitad de "
  const Promo3: string := "temporada. ¡Hasta 50% de descuento en "
  const Promo4: string := "productos seleccionados! Compra ahora: "
  const Promo5: string := "[link]"
  const PromoPreview: string := Promo1 + Promo2 + Promo3 + Promo4 + Promo5

  const Reminder1: string := "Hola, [nombre]. Te recordamos tu cita "
  const Reminder2: string := "con nosotros mañana a las [hora]. Si "
  const Reminder3: string := "necesitas reagendar, responde a este "
  const Reminder4: string := "mensaje."
  const ReminderPreview: string := Reminder1 + Reminder2 + Reminder3 + Reminder4

  const Shipping1: string := "¡Buenas noticias, [nombre]! Tu pedido "
  const Shipping2: string := "#[número_de_pedido] ha sido enviado y "
  const Shipping3: string := "está en camino. Puedes seguirlo aquí: "
  const Shipping4: string := "[link_seguimiento]"
  const ShippingPreview: string := Shipping1 + Shipping2 + Shipping3 + Shipping4

  const Cart1: string := "¡Hola, [nombre]! Notamos que dejaste "
  const Cart2: string := "algunos artículos en tu carrito. "
  const Cart3: string := "¡Completa tu compra antes de que se "
  const Cart4: string := "agoten! Aquí tienes tu carrito: "
  const Cart5: string := "[link_carrito]"
  const CartPreview: string := Cart1 + Cart2 + Cart3 + Cart4 + Cart5

  const Feedback1: string := "Hola, [nombre], gracias por tu reciente "
  const Feedback2: string := "compra. Nos encantaría conocer tu "
  const Feedback3: string := "opinión. ¿Podrías dedicarnos un minuto? "
  const Feedback4: string := "[link_encuesta]"
  const FeedbackPreview: string := Feedback1 + Feedback2 + Feedback3 + Feedback4

  /** `templates`, in gallery order. */
  const TemplateCards: seq<TemplateCard> := [
    TemplateCard("Promoción Exclusiva", "1.2", 1250, 18, "Español", PromoPreview),
    TemplateCard("Recordatorio de Cita", "1.0", 340, 45, "Español", ReminderPreview),
    TemplateCard("Tu Pedido Está en Camino", "2.1", 890, 8, "English", ShippingPreview),
    TemplateCard("Carrito Abandonado", "1.5", 620, 25, "English", CartPreview),
    TemplateCard("Solicitud de Feedback", "1.0", 980, 32, "Español", FeedbackPreview)
  ]

  /** `filteredTemplates`: the cards whose name contains the term, ignoring
      case, in gallery order; the preview text is not searched. */
  function FilteredTemplates(cards: seq<TemplateCard>, term: string): (r: seq<TemplateCard>)
    ensures IsSubsequence(r, cards)
    ensures forall i :: 0 <= i < |r| ==> r[i] in cards && MatchesIgnoringCase(r[i].name, term)
    ensures forall i :: 0 <= i < |cards| && MatchesIgnoringCase(cards[i].name, term) ==> cards[i] in r
    ensures forall t :: multiset(r)[t] == if MatchesIgnoringCase(t.name, term) then multiset(cards)[t] else 0
  {
    FilterMultiset(cards, (t: TemplateCard) => MatchesIgnoringCase(t.name, term));
    FilterIsSubsequence(cards, (t: TemplateCard) => MatchesIgnoringCase(t.name, term));
    Filter(cards, (t: TemplateCard) => MatchesIgnoringCase(t.name, term))
  }

  /** An empty search shows all five cards, in order. */
  lemma EmptySearchShowsAll(cards: seq<TemplateCard>)
    requires cards == TemplateCards
    ensures FilteredTemplates(cards, "") == cards && |cards| == 5
  {
    forall i | 0 <= i < |cards|
      ensures MatchesIgnoringCase(cards[i].name, "")
    {
      EmptyTermMatches(cards[i].name);
    }
    FilterKeepsAll(cards, (t: TemplateCard) => MatchesIgnoringCase(t.name, ""));
  }

  /** A card whose preview contains the term, but not its name, is not shown. */
  lemma PreviewNotSearched(cards: seq<TemplateCard>, term: string, k: nat)
    requires k < |cards| && MatchesIgnoringCase(cards[k].preview, term)
    requires !MatchesIgnoringCase(cards[k].name, term)
    ensures cards[k] !in FilteredTemplates(cards, term)
  {
  }

  /** Text without an opening brace holds no `{{`, has no template
      parameters and previews as itself in the editor. */
  lemma NoBraceNoPlaceholder(s: string)
    requires '{' !in s
    ensures !Contains(s, "{{")
    ensures TemplateEditor.ExtractParams(s) == []
    ensures forall values :: TemplateEditor.Preview(s, values) == s
  {
    forall i | 0 <= i <= |s| - 2
      ensures !OccursAt(s, "{{", i)
    {
      assert s[i..i + 2][0] == s[i] && s[i] in s;
    }
    forall values: map<string, string>
      ensures TemplateEditor.Preview(s, values) == s
    {
      TemplateEditor.PlainText(s, values);
    }
    TemplateEditor.PlainText(s, map[]);
  }

  lemma Promo1Plain()
    ensures '{' !in Promo1
  {
  }

  lemma Promo2Plain()
    ensures '{' !in Promo2
  {
  }

  lemma Promo3Plain()
    ensures '{' !in Promo3
  {
  }

  lemma Promo4Plain()
    ensures '{' !in Promo4
  {
  }

  lemma Promo5Plain()
    ensures '{' !in Promo5
  {
  }

  lemma Reminder1Plain()
    ensures '{' !in Reminder1
  {
  }

  lemma Reminder2Plain()
    ensures '{' !in Reminder2
  {
  }

  lemma Reminder3Plain()
    ensures '{' !in Reminder3
  {
  }

  lemma Reminder4Plain()
    ensures '{' !in Reminder4
  {
  }

  lemma Shipping1Plain()
    ensures '{' !in Shipping1
  {
  }

  lemma Shipping2Plain()
    ensures '{' !in Shipping2
  {
  }

  lemma Shipping3Plain()
    ensures '{' !in Shipping3
  {
  }

  lemma Shipping4Plain()
    ensures '{' !in Shipping4
  {
  }

  lemma Cart1Plain()
    ensures '{' !in Cart1
  {
  }

  lemma Cart2Plain()
    ensures '{' !in Cart2
  {
  }

  lemma Cart3Plain()
    ensures '{' !in Cart3
  {
  }

  lemma Cart4Plain()
    ensures '{' !in Cart4
  {
  }

  lemma Cart5Plain()
    ensures '{' !in Cart5
  {
  }

  lemma Feedback1Plain()
    ensures '{' !in Feedback1
  {
  }

  lemma Feedback2Plain()
    ensures '{' !in Feedback2
  {
  }

  lemma Feedback3Plain()
    ensures '{' !in Feedback3
  {
  }

  lemma Feedback4Plain()
    ensures '{' !in Feedback4
  {
  }

  lemma PromoPreviewPlain()
    ensures '{' !in PromoPreview
  {
    Promo1Plain();
    Promo2Plain();
    Promo3Plain();
    Promo4Plain();
    Promo5Plain();
  }

  lemma ReminderPreviewPlain()
    ensures '{' !in ReminderPreview
  {
    Reminder1Plain();
    Reminder2Plain();
    Reminder3Plain();
    Reminder4Plain();
  }

  lemma ShippingPreviewPlain()
    ensures '{' !in ShippingPreview
  {
    Shipping1Plain();
    Shipping2Plain();
    Shipping3Plain();
    Shipping4Plain();
  }

  lemma CartPreviewPlain()
    ensures '{' !in CartPreview
  {
    Cart1Plain();
    Cart2Plain();
    Cart3Plain();
    Cart4Plain();
    Cart5Plain();
  }

  lemma FeedbackPreviewPlain()
    ensures '{' !in FeedbackPreview
  {
    Feedback1Plain();
    Feedback2Plain();
    Feedback3Plain();
    Feedback4Plain();
  }

  /** No gallery preview holds a `{{name}}` placeholder. */
  lemma PreviewsHaveNoPlaceholder(k: nat)
    requires k < |TemplateCards|
    ensures !Contains(TemplateCards[k].preview, "{{")
    ensures TemplateEditor.ExtractParams(TemplateCards[k].preview) == []
  {
    PromoPreviewPlain();
    ReminderPreviewPlain();
    ShippingPreviewPlain();
    CartPreviewPlain();
    FeedbackPreviewPlain();
    NoBraceNoPlaceholder(TemplateCards[k].preview);
  }
}
