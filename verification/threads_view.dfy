/**
 * The paged list of conversation threads
 * (src/components/features/conversations/ThreadsView.tsx): 53 generated
 * threads, ten to a page, a current page that only moves to pages that
 * exist, and messages cut to fifty characters for display. A thread's
 * timestamp is taken as the number of hours before now.
 */
module ThreadsView {
  import opened Common
  import opened Text

  datatype Thread = Thread(id: string, lastMessage: string, hoursAgo: nat, status: string)

  const ThreadCount: nat := 53
  const ItemsPerPage: nat := 10
  const FirstThreadNumber: nat := 10234

  /** The seven canned last messages, used in turn. */
  const LastMessages: seq<string> := [
    "Sure, I can help with that! What is your order number?",
    "Thanks for reaching out. Your ticket has been created.",
    "Our new feature is now live! Check it out in your dashboard.",
    "Did you try clearing your cache? That often solves the issue.",
    "Your subscription has been successfully renewed for another year.",
    "We have received your payment. Thank you for your business!",
    "Can you provide a screenshot of the error message?"
  ]

  /** The three statuses, used in turn. */
  const ThreadStatuses: seq<string> := ["Open", "Closed", "Pending"]

  /** The thread generated at position `i`. */
  function ThreadAt(i: nat): (t: Thread)
    ensures t.id == "CONV-" + DecimalString(FirstThreadNumber + i)
    ensures t.status == ThreadStatuses[i % 3]
    ensures t.lastMessage == LastMessages[i % 7]
    ensures t.hoursAgo == i
  {
    Thread("CONV-" + DecimalString(FirstThreadNumber + i), LastMessages[i % 7], i, ThreadStatuses[i % 3])
  }

  /** `allThreads`. */
  const AllThreads: seq<Thread> := seq(ThreadCount, i requires 0 <= i => ThreadAt(i))

  /** Thread ids are pairwise distinct, so they can key the table rows. */
  lemma ThreadIdsDistinct()
    ensures |AllThreads| == ThreadCount
    ensures forall i, j :: 0 <= i < j < |AllThreads| ==> AllThreads[i].id != AllThreads[j].id
  {
    forall i, j | 0 <= i < j < |AllThreads|
      ensures AllThreads[i].id != AllThreads[j].id
    {
      var a := DecimalString(FirstThreadNumber + i);
      var b := DecimalString(FirstThreadNumber + j);
      assert AllThreads[i].id == "CONV-" + a && AllThreads[j].id == "CONV-" + b;
      if a == b {
        DecimalStringInjective(FirstThreadNumber + i, FirstThreadNumber + j);
      }
      assert ("CONV-" + a)[5..] == a && ("CONV-" + b)[5..] == b;
    }
  }

  /** `Math.ceil(n / ITEMS_PER_PAGE)`: the fewest pages of ten holding `n` items. */
  function TotalPages(n: nat): (pages: nat)
    ensures (pages - 1) * ItemsPerPage < n <= pages * ItemsPerPage || (n == 0 && pages == 0)
  {
    (n + ItemsPerPage - 1) / ItemsPerPage
  }

  lemma ThreadsFillSixPages()
    ensures TotalPages(|AllThreads|) == 6
  {
  }

  /** `items.slice((page - 1) * 10, (page - 1) * 10 + 10)`, with `slice`'s
      clamping of both ends to the length. */
  function PageSlice<T>(items: seq<T>, page: nat): (r: seq<T>)
    requires page >= 1
    ensures (page - 1) * ItemsPerPage <= |items| ==>
              |r| == Min(page * ItemsPerPage, |items|) - (page - 1) * ItemsPerPage
    ensures (page - 1) * ItemsPerPage > |items| ==> r == []
    ensures forall k :: 0 <= k < |r| ==> r[k] == items[(page - 1) * ItemsPerPage + k]
  {
    var start := (page - 1) * ItemsPerPage;
    var end := start + ItemsPerPage;
    if start >= |items| then [] else items[start..Min(end, |items|)]
  }

  /** Pages 1 to 5 hold ten threads each and page 6 the last three. */
  lemma PageSizes()
    ensures forall p :: 1 <= p <= 5 ==> |PageSlice(AllThreads, p)| == 10
    ensures |PageSlice(AllThreads, 6)| == 3
  {
  }

  /** Pages `1..k` put end to end. */
  function PagesUpTo<T>(items: seq<T>, k: nat): (r: seq<T>)
    ensures |r| == Min(k * ItemsPerPage, |items|)
    decreases k
  {
    if k == 0 then [] else PagesUpTo(items, k - 1) + PageSlice(items, k)
  }

  /** The first `k` pages are the first `10 k` items. */
  lemma {:induction false} PagesUpToIsPrefix<T>(items: seq<T>, k: nat)
    ensures PagesUpTo(items, k) == items[..Min(k * ItemsPerPage, |items|)]
    decreases k
  {
    if k > 0 {
      PagesUpToIsPrefix(items, k - 1);
      NextPageExtendsPrefix(items, k);
    }
  }

  /** Page `k` continues the first `k - 1` pages. */
  lemma NextPageExtendsPrefix<T>(items: seq<T>, k: nat)
    requires k >= 1
    ensures items[..Min((k - 1) * ItemsPerPage, |items|)] + PageSlice(items, k)
         == items[..Min(k * ItemsPerPage, |items|)]
  {
    var a := Min((k - 1) * ItemsPerPage, |items|);
    var b := Min(k * ItemsPerPage, |items|);
    assert k * ItemsPerPage == (k - 1) * ItemsPerPage + ItemsPerPage;
    assert items[..b] == items[..a] + items[a..b];
  }

  /** Every item is on exactly one page: reading all pages in order gives the
      whole list back. */
  lemma PagesCoverAll<T>(items: seq<T>)
    ensures PagesUpTo(items, TotalPages(|items|)) == items
  {
    PagesUpToIsPrefix(items, TotalPages(|items|));
    assert items[..|items|] == items;
  }

  /** The message column: the first fifty characters, with `...` after them
      only when something was cut. */
  function DisplayedMessage(m: string): (r: string)
    ensures |m| <= 50 ==> r == m
    ensures |m| > 50 ==> |r| == 53 && r[..50] == m[..50] && r[50..] == "..."
  {
    m[..Min(50, |m|)] + (if |m| > 50 then "..." else "")
  }

  /** Only the last canned message (exactly fifty characters) is shown
      whole; the other six are cut and get `...`. */
  lemma CannedMessagesDisplay()
    ensures DisplayedMessage(LastMessages[6]) == LastMessages[6]
    ensures forall i :: 0 <= i < 6 ==> |LastMessages[i]| > 50 && |DisplayedMessage(LastMessages[i])| == 53
  {
    assert |LastMessages[6]| == 50;
  }

  datatype Badge = OpenBadge | ClosedBadge | PendingBadge | PlainBadge(shown: string)

  /** `getStatusBadge`: the three statuses, in any letter case, get their own
      badge; any other status is shown as written. */
  function StatusBadge(status: string): (b: Badge)
    ensures b.PlainBadge? <==> Lower(status) !in ["open", "closed", "pending"]
    ensures b.PlainBadge? ==> b.shown == status
  {
    var s := Lower(status);
    if s == "open" then OpenBadge
    else if s == "closed" then ClosedBadge
    else if s == "pending" then PendingBadge
    else PlainBadge(status)
  }

  /** Every generated status gets its own badge. */
  lemma GeneratedStatusesHaveBadges(open: string, closed: string, pending: string)
    requires [open, closed, pending] == ThreadStatuses
    ensures StatusBadge(open) == OpenBadge
    ensures StatusBadge(closed) == ClosedBadge
    ensures StatusBadge(pending) == PendingBadge
  {
    assert open == ThreadStatuses[0] && closed == ThreadStatuses[1] && pending == ThreadStatuses[2];
    LowerOpen(open);
    LowerClosed(closed);
    LowerPending(pending);
  }

  lemma LowerOpen(s: string)
    requires s == "Open"
    ensures Lower(s) == "open"
  {
  }

  lemma LowerClosed(s: string)
    requires s == "Closed"
    ensures Lower(s) == "closed"
  {
  }

  lemma LowerPending(s: string)
    requires s == "Pending"
    ensures Lower(s) == "pending"
  {
  }

  /** The view's state: the page shown, always one that exists. */
  class Pager {
    var currentPage: int

    predicate Valid()
      reads this
    {
      1 <= currentPage <= TotalPages(|AllThreads|)
    }

    constructor()
      ensures Valid() && currentPage == 1
    {
      currentPage := 1;
    }

    /** `currentThreads`: the slice of the current page. */
    function CurrentThreads(): (r: seq<Thread>)
      requires Valid()
      reads this
      ensures 1 <= |r| <= ItemsPerPage
      ensures forall k :: 0 <= k < |r| ==>
                (currentPage - 1) * ItemsPerPage + k < |AllThreads| &&
                r[k] == AllThreads[(currentPage - 1) * ItemsPerPage + k]
    {
      PageSlice(AllThreads, currentPage)
    }

    /** `handlePageChange`: a page outside `1..totalPages` is ignored. */
    method HandlePageChange(page: int)
      requires Valid()
      modifies this
      ensures Valid()
      ensures 1 <= page <= TotalPages(|AllThreads|) ==> currentPage == page
      ensures !(1 <= page <= TotalPages(|AllThreads|)) ==> currentPage == old(currentPage)
    {
      if 1 <= page <= TotalPages(|AllThreads|) {
        currentPage := page;
      }
    }

    /** The Previous link: a no-op on the first page. */
    method Previous()
      requires Valid()
      modifies this
      ensures Valid()
      ensures old(currentPage) == 1 ==> currentPage == 1
      ensures old(currentPage) > 1 ==> currentPage == old(currentPage) - 1
    {
      HandlePageChange(currentPage - 1);
    }

    /** The Next link: a no-op on the last page. */
    method Next()
      requires Valid()
      modifies this
      ensures Valid()
      ensures old(currentPage) == TotalPages(|AllThreads|) ==> currentPage == old(currentPage)
      ensures old(currentPage) < TotalPages(|AllThreads|) ==> currentPage == old(currentPage) + 1
    {
      HandlePageChange(currentPage + 1);
    }
  }
}
