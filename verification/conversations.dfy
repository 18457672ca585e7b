/**
 * The conversation board (src/pages/Conversations.tsx): a search over the
 * conversations, one column per status showing the matching conversations
 * of that status with a count badge, the avatar initials on each card, and
 * the icon and colour of each status.
 */
module Conversations {
  import opened Common
  import opened Text
  import opened MockData

  /** `statusColumns`: the ids of the board's columns, left to right. */
  const StatusColumns: seq<string> := ["waiting", "bot_responding", "escalated", "resolved"]

  /** The columns are the four statuses a conversation may have, each once. */
  lemma ColumnsAreTheStatuses()
    ensures StatusColumns == ConversationStatuses
    ensures NoDuplicates(StatusColumns)
  {
  }

  /** The search rule: the contact's name or the last message contains the
      term ignoring case, or the phone number contains it as typed. */
  function ConversationMatches(c: Conversation, term: string): (found: bool)
    ensures term == "" ==> found
  {
    MatchesIgnoringCase(c.contactName, term) || Contains(c.contactPhone, term) ||
    MatchesIgnoringCase(c.lastMessage, term)
  }

  /** `filteredConversations`: the matching conversations, in their order. */
  function FilteredConversations(cs: seq<Conversation>, term: string): (r: seq<Conversation>)
    ensures IsSubsequence(r, cs)
    ensures forall i :: 0 <= i < |r| ==> r[i] in cs && ConversationMatches(r[i], term)
    ensures forall i :: 0 <= i < |cs| && ConversationMatches(cs[i], term) ==> cs[i] in r
    ensures forall c :: multiset(r)[c] == if ConversationMatches(c, term) then multiset(cs)[c] else 0
  {
    FilterMultiset(cs, (c: Conversation) => ConversationMatches(c, term));
    FilterIsSubsequence(cs, (c: Conversation) => ConversationMatches(c, term));
    Filter(cs, (c: Conversation) => ConversationMatches(c, term))
  }

  /** An empty search keeps every conversation. */
  lemma EmptySearchKeepsAll(cs: seq<Conversation>)
    ensures FilteredConversations(cs, "") == cs
  {
    forall i | 0 <= i < |cs|
      ensures ConversationMatches(cs[i], "")
    {
      EmptyTermMatches(cs[i].contactName);
    }
    FilterKeepsAll(cs, (c: Conversation) => ConversationMatches(c, ""));
  }

  /** `getConversationsByStatus`: the filtered conversations with that status, in order. */
  function ByStatus(filtered: seq<Conversation>, status: string): (col: seq<Conversation>)
    ensures IsSubsequence(col, filtered)
    ensures forall i :: 0 <= i < |col| ==> col[i] in filtered && col[i].status == status
    ensures forall i :: 0 <= i < |filtered| && filtered[i].status == status ==> filtered[i] in col
  {
    FilterIsSubsequence(filtered, (c: Conversation) => c.status == status);
    Filter(filtered, (c: Conversation) => c.status == status)
  }

  /** How many cards the columns `ids` hold between them. */
  function ColumnTotal(filtered: seq<Conversation>, ids: seq<string>): (total: nat)
    ensures filtered == [] ==> total == 0
    decreases |ids|
  {
    if ids == [] then 0 else |ByStatus(filtered, ids[0])| + ColumnTotal(filtered, ids[1..])
  }

  /** How many of the columns `ids` take a conversation with this status. */
  function Hits(status: string, ids: seq<string>): nat
    decreases |ids|
  {
    if ids == [] then 0 else (if ids[0] == status then 1 else 0) + Hits(status, ids[1..])
  }

  /** Each column takes the first conversation or not, and the rest as before. */
  lemma {:induction false} ColumnTotalStep(filtered: seq<Conversation>, ids: seq<string>)
    requires filtered != []
    ensures ColumnTotal(filtered, ids) == Hits(filtered[0].status, ids) + ColumnTotal(filtered[1..], ids)
    decreases |ids|
  {
    if ids != [] {
      ColumnTotalStep(filtered, ids[1..]);
      var p := (c: Conversation) => c.status == ids[0];
      assert ByStatus(filtered, ids[0]) == Filter(filtered, p);
      assert ByStatus(filtered[1..], ids[0]) == Filter(filtered[1..], p);
    }
  }

  /** Among distinct column ids, a status is taken by exactly one column when
      it is one of them. */
  lemma {:induction false} HitsOfDistinct(status: string, ids: seq<string>)
    requires NoDuplicates(ids)
    ensures Hits(status, ids) == if status in ids then 1 else 0
    decreases |ids|
  {
    if ids != [] {
      assert NoDuplicates(ids[1..]);
      HitsOfDistinct(status, ids[1..]);
      if ids[0] == status {
        assert status !in ids[1..];
      }
    }
  }

  /** When the column ids are distinct and cover every status present, the
      columns hold every conversation exactly once between them. */
  lemma {:induction false} ColumnsPartition(filtered: seq<Conversation>, ids: seq<string>)
    requires NoDuplicates(ids)
    requires forall i :: 0 <= i < |filtered| ==> filtered[i].status in ids
    ensures ColumnTotal(filtered, ids) == |filtered|
    decreases |filtered|
  {
    if filtered == [] {
      ColumnTotalEmpty(ids);
    } else {
      ColumnTotalStep(filtered, ids);
      HitsOfDistinct(filtered[0].status, ids);
      ColumnsPartition(filtered[1..], ids);
    }
  }

  /** With nothing to show, every column is empty. */
  lemma {:induction false} ColumnTotalEmpty(ids: seq<string>)
    ensures ColumnTotal([], ids) == 0
    decreases |ids|
  {
    if ids != [] {
      ColumnTotalEmpty(ids[1..]);
    }
  }

  /** Whatever the search, the four columns together show each matching
      conversation once, provided every status is one of the four. */
  lemma BoardShowsEveryMatchOnce(cs: seq<Conversation>, term: string)
    requires forall i :: 0 <= i < |cs| ==> cs[i].status in ConversationStatuses
    ensures ColumnTotal(FilteredConversations(cs, term), StatusColumns) == |FilteredConversations(cs, term)|
  {
    ColumnsAreTheStatuses();
    var f := FilteredConversations(cs, term);
    assert forall i :: 0 <= i < |f| ==> f[i] in cs;
    ColumnsPartition(f, StatusColumns);
  }

  /** The sample conversations meet that condition. */
  lemma SampleBoardShowsEveryMatchOnce(cs: seq<Conversation>, term: string)
    requires cs == MockConversations
    ensures ColumnTotal(FilteredConversations(cs, term), StatusColumns) == |FilteredConversations(cs, term)|
  {
    EachConversationStatusOnce();
    BoardShowsEveryMatchOnce(cs, term);
  }

  /** What a column draws: the count badge, the cards, and the empty-state
      message. */
  datatype ColumnView = ColumnView(id: string, badge: nat, cards: seq<Conversation>, emptyState: bool)

  /** One column of the board for the filtered list. */
  function Column(filtered: seq<Conversation>, id: string): (v: ColumnView)
    ensures v.id == id && v.cards == ByStatus(filtered, id)
    ensures v.badge == |v.cards|
    ensures v.emptyState <==> v.badge == 0
    ensures v.emptyState <==> forall i :: 0 <= i < |filtered| ==> filtered[i].status != id
  {
    var col := ByStatus(filtered, id);
    ColumnView(id, |col|, col, |col| == 0)
  }

  /** The board: one column per status, in column order. */
  function Board(filtered: seq<Conversation>): (vs: seq<ColumnView>)
    ensures |vs| == |StatusColumns|
    ensures forall k :: 0 <= k < |vs| ==> vs[k] == Column(filtered, StatusColumns[k])
  {
    seq(|StatusColumns|, k requires 0 <= k < |StatusColumns| => Column(filtered, StatusColumns[k]))
  }

  /** `n[0]` of a word, which is `undefined` (joined as nothing) for an empty word. */
  function FirstLetter(word: string): (r: string)
    ensures |r| <= 1 && (r == [] <==> word == [])
    ensures word != [] ==> r[0] == word[0]
  {
    if word == [] then [] else [word[0]]
  }

  /** `words.map(n => n[0]).join('')`. */
  function InitialsOf(words: seq<string>): (r: string)
    ensures |r| <= |words|
    ensures r == [] <==> forall j :: 0 <= j < |words| ==> words[j] == []
    decreases |words|
  {
    if words == [] then [] else FirstLetter(words[0]) + InitialsOf(words[1..])
  }

  /** The avatar fallback: the first letter of each space-separated word of
      the contact's name. */
  function Initials(name: string): (r: string)
    ensures ' ' !in r
  {
    var words := Split(name, ' ');
    InitialsHaveNoSpace(words);
    InitialsOf(words)
  }

  lemma {:induction false} InitialsHaveNoSpace(words: seq<string>)
    requires forall j :: 0 <= j < |words| ==> ' ' !in words[j]
    ensures ' ' !in InitialsOf(words)
    decreases |words|
  {
    if words != [] {
      InitialsHaveNoSpace(words[1..]);
      assert words[0] != [] ==> words[0][0] in words[0];
    }
  }

  /** The initials of two runs of words are the initials of the first run
      followed by those of the second; an empty word adds nothing. */
  lemma {:induction false} InitialsOfConcat(a: seq<string>, b: seq<string>)
    ensures InitialsOf(a + b) == InitialsOf(a) + InitialsOf(b)
    decreases |a|
  {
    if a != [] {
      assert (a + b)[0] == a[0] && (a + b)[1..] == a[1..] + b;
      InitialsOfConcat(a[1..], b);
    } else {
      assert a + b == b;
    }
  }

  /** Of non-empty words, the initials are the first character of each word, in order. */
  lemma {:induction false} InitialsOfNonEmptyWords(ws: seq<string>)
    requires forall j :: 0 <= j < |ws| ==> ws[j] != []
    ensures |InitialsOf(ws)| == |ws|
    ensures forall j :: 0 <= j < |ws| ==> InitialsOf(ws)[j] == ws[j][0]
    decreases |ws|
  {
    if ws != [] {
      InitialsOfNonEmptyWords(ws[1..]);
      assert InitialsOf(ws) == [ws[0][0]] + InitialsOf(ws[1..]);
    }
  }

  /** A name made of words joined by single spaces: its initials are the
      initials of those words. */
  lemma InitialsOfName(ws: seq<string>)
    requires |ws| >= 1 && forall j :: 0 <= j < |ws| ==> ' ' !in ws[j]
    ensures Initials(Join(ws, " ")) == InitialsOf(ws)
  {
    SplitJoin(ws, ' ');
  }

  /** A name of non-empty words joined by single spaces shows one initial
      per word: the word's first character. */
  lemma InitialsAreFirstLetters(ws: seq<string>)
    requires |ws| >= 1 && forall j :: 0 <= j < |ws| ==> ws[j] != [] && ' ' !in ws[j]
    ensures |Initials(Join(ws, " "))| == |ws|
    ensures forall j :: 0 <= j < |ws| ==> Initials(Join(ws, " "))[j] == ws[j][0]
  {
    InitialsOfName(ws);
    InitialsOfNonEmptyWords(ws);
  }

  /** A name without spaces is one word. */
  lemma OneWord(word: string)
    requires ' ' !in word
    ensures Split(word, ' ') == [word]
  {
  }

  /** A first and a last name give two initials. */
  lemma TwoWordInitials(first: string, last: string)
    requires first != [] && last != [] && ' ' !in first && ' ' !in last
    ensures Initials(first + " " + last) == [first[0], last[0]]
  {
    var name := first + " " + last;
    assert name[|first|] == ' ';
    var k := FirstIndex(name, ' ');
    assert forall i :: 0 <= i < |first| ==> name[i] == first[i];
    assert k == |first|;
    assert name[..k] == first;
    assert name[k + 1..] == last;
    OneWord(last);
    assert Split(name, ' ') == [first, last];
    assert InitialsOf([last]) == [last[0]] + InitialsOf([]);
    assert InitialsOf([first, last]) == [first[0]] + InitialsOf([last]);
  }

  /** The first sample contact, John Smith, is shown as "JS". */
  lemma JohnSmithInitials(name: string)
    requires name == MockConversations[0].contactName
    ensures Initials(name) == "JS"
  {
    assert name == "John" + " " + "Smith";
    TwoWordInitials("John", "Smith");
  }

  datatype StatusIcon = AlertTriangle | BotIcon | CheckCircle | MessageSquare

  datatype Tone = Warning | Info | Destructive | Success | Muted

  /** `getStatusIcon`: the speech bubble exactly for a status that is not a column. */
  function IconOf(status: string): (icon: StatusIcon)
    ensures icon == MessageSquare <==> status !in StatusColumns
  {
    match status
    case "waiting" => AlertTriangle
    case "bot_responding" => BotIcon
    case "escalated" => AlertTriangle
    case "resolved" => CheckCircle
    case _ => MessageSquare
  }

  /** `getStatusColor`: the muted colour exactly for a status that is not a column. */
  function ColorOf(status: string): (tone: Tone)
    ensures tone == Muted <==> status !in StatusColumns
  {
    match status
    case "waiting" => Warning
    case "bot_responding" => Info
    case "escalated" => Destructive
    case "resolved" => Success
    case _ => Muted
  }

  /** Waiting and escalated share the warning triangle but not the colour;
      the four statuses have four different colours. */
  lemma StatusTables()
    ensures IconOf("waiting") == IconOf("escalated") == AlertTriangle
    ensures IconOf("bot_responding") == BotIcon && IconOf("resolved") == CheckCircle
    ensures forall i, j :: 0 <= i < j < |StatusColumns| ==> ColorOf(StatusColumns[i]) != ColorOf(StatusColumns[j])
  {
  }
}
