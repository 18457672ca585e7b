/**
 * The phone-shaped chat preview (src/components/features/TemplatePreview.tsx).
 * It keeps a history of at most ten messages and an input line. A template
 * sent from the editor arrives as a message from the other side, rendered
 * with its example values. Text typed by the user goes out as the user's own
 * message unless it is blank. Message ids (`Date.now()`) and the time of day
 * are passed in.
 */
module TemplatePreview {
  import opened Common
  import opened Text
  import opened MockData
  import Utils

  datatype Sender = Me | Them

  datatype Message = Message(id: int, text: string, sender: Sender, time: string)

  /** The history keeps this many of the most recent messages. */
  const HistoryLimit: nat := 10

  /** The history after one message arrives: the message goes last, and when
      that makes more than ten, only the ten most recent are kept. */
  function Appended(history: seq<Message>, m: Message): (r: seq<Message>)
    ensures |r| == Min(|history| + 1, HistoryLimit)
    ensures r[|r| - 1] == m
    ensures r == (history + [m])[|history| + 1 - |r|..]
  {
    var updated := history + [m];
    if |updated| > HistoryLimit then updated[|updated| - HistoryLimit..] else updated
  }

  /** A full history loses its oldest message. */
  lemma FullHistoryDropsOldest(history: seq<Message>, m: Message)
    requires |history| == HistoryLimit
    ensures Appended(history, m) == history[1..] + [m]
  {
    assert (history + [m])[1..] == history[1..] + [m];
  }

  /** The history after the messages `ms` arrive one by one, first to last. */
  function AppendedAll(history: seq<Message>, ms: seq<Message>): (r: seq<Message>)
    ensures |history| <= HistoryLimit ==> |r| <= HistoryLimit
    decreases |ms|
  {
    if ms == [] then history else Appended(AppendedAll(history, ms[..|ms| - 1]), ms[|ms| - 1])
  }

  function Max(a: int, b: int): int { if a >= b then a else b }

  lemma SuffixOfSuffix(all: seq<Message>, c: nat, m: Message, j: nat)
    requires c <= |all| && j <= |all| - c + 1
    ensures (all[c..] + [m])[j..] == (all + [m])[c + j..]
  {
    assert all[c..] + [m] == (all + [m])[c..];
  }

  /** One more arrival keeps the history the last ten of everything that arrived. */
  lemma AppendedKeepsLastTen(all: seq<Message>, before: seq<Message>, m: Message)
    requires before == all[Max(0, |all| - HistoryLimit)..]
    ensures Appended(before, m) == (all + [m])[Max(0, |all| + 1 - HistoryLimit)..]
  {
    var c := Max(0, |all| - HistoryLimit);
    SuffixOfSuffix(all, c, m, |before| + 1 - |Appended(before, m)|);
  }

  /** However many messages arrive, the history is the last ten of everything
      that arrived, in arrival order. */
  lemma {:induction false} HistoryIsLastTen(history: seq<Message>, ms: seq<Message>)
    requires |history| <= HistoryLimit
    ensures AppendedAll(history, ms) == (history + ms)[Max(0, |history| + |ms| - HistoryLimit)..]
    decreases |ms|
  {
    if ms == [] {
      assert history + ms == history;
    } else {
      var n := |ms| - 1;
      HistoryIsLastTen(history, ms[..n]);
      assert ms == ms[..n] + [ms[n]];
      HistoryStep(history, ms, ms[..n], ms[n], AppendedAll(history, ms[..n]));
    }
  }

  /** The step of `HistoryIsLastTen`: `before` is the history after `init`. */
  lemma HistoryStep(history: seq<Message>, ms: seq<Message>, init: seq<Message>, m: Message, before: seq<Message>)
    requires ms == init + [m]
    requires before == (history + init)[Max(0, |history| + |init| - HistoryLimit)..]
    ensures Appended(before, m) == (history + ms)[Max(0, |history| + |ms| - HistoryLimit)..]
  {
    assert history + ms == (history + init) + [m];
    AppendedKeepsLastTen(history + init, before, m);
  }

  /** The chat preview's state: the message history and the input line. */
  class ChatPreview {
    var messages: seq<Message>
    var inputValue: string

    /** The history never holds more than ten messages. */
    predicate Valid()
      reads this
    {
      |messages| <= HistoryLimit
    }

    /** The preview opens with no messages and an empty input. */
    constructor()
      ensures Valid()
      ensures messages == [] && inputValue == ""
    {
      messages := [];
      inputValue := "";
    }

    /** `addTemplateMessage`: the template, rendered with its example values,
        arrives from the other side. The input line is not touched. */
    method AddTemplateMessage(t: Template, id: int, time: string)
      requires Valid()
      modifies this
      ensures Valid()
      ensures messages == Appended(old(messages), Message(id, Utils.Rendered(t), Them, time))
      ensures inputValue == old(inputValue)
    {
      var text := Utils.RenderTemplate(t);
      messages := Appended(messages, Message(id, text, Them, time));
    }

    /** Typing into the input line. */
    method ChangeInput(value: string)
      modifies this
      ensures inputValue == value
      ensures messages == old(messages)
    {
      inputValue := value;
    }

    /** `handleSendMessage` (Enter or the send button): blank input is
        ignored; otherwise the input, untrimmed, goes out as the user's own
        message and the input line is cleared. */
    method SendMessage(id: int, time: string)
      requires Valid()
      modifies this
      ensures Valid()
      ensures IsBlank(old(inputValue)) ==> messages == old(messages) && inputValue == old(inputValue)
      ensures !IsBlank(old(inputValue)) ==>
                messages == Appended(old(messages), Message(id, old(inputValue), Me, time)) && inputValue == ""
    {
      if IsBlank(inputValue) {
        return;
      }
      messages := Appended(messages, Message(id, inputValue, Me, time));
      inputValue := "";
    }
  }
}
