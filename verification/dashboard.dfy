/**
 * The dashboard (src/pages/Dashboard.tsx): the Active Tenants figure, the
 * recent-conversations list, and the label, colour and icon of each
 * conversation status there.
 */
module Dashboard {
  import opened Common
  import opened Text
  import opened MockData

  /** The Active Tenants figure: the number of tenants in decimal. It counts
      every tenant, whatever its status. */
  function ActiveTenantsStat(tenants: seq<Tenant>): (value: string)
    ensures |value| >= 1 && forall i :: 0 <= i < |value| ==> IsDigit(value[i])
    ensures DecimalValue(value) == |tenants|
  {
    DecimalRoundTrip(|tenants|);
    DecimalString(|tenants|)
  }

  /** With the two sample tenants the figure reads "2". */
  lemma SampleActiveTenants(tenants: seq<Tenant>)
    requires tenants == MockTenants
    ensures ActiveTenantsStat(tenants) == "2"
  {
    assert |tenants| == 2;
  }

  /** `recentConversations`: the first five conversations, or all when fewer, in order. */
  function RecentConversations(cs: seq<Conversation>): (r: seq<Conversation>)
    ensures |r| == Min(5, |cs|) && r <= cs
    ensures |cs| <= 5 ==> r == cs
  {
    cs[..Min(5, |cs|)]
  }

  /** The four sample conversations are all listed. */
  lemma SampleRecentIsAll(cs: seq<Conversation>)
    requires cs == MockConversations
    ensures RecentConversations(cs) == cs
  {
  }

  /** `status.replace('_', ' ')`: a string pattern replaces only its first
      occurrence, so exactly the first `_` becomes a space and any later one
      stays. */
  function StatusLabel(status: string): (shown: string)
    ensures |shown| == |status|
    ensures '_' !in status ==> shown == status
    ensures '_' in status ==>
              var k := FirstIndex(status, '_');
              shown[k] == ' ' && shown[..k] == status[..k] && shown[k + 1..] == status[k + 1..]
  {
    if '_' in status then
      var k := FirstIndex(status, '_');
      status[..k] + " " + status[k + 1..]
    else status
  }

  /** Text up to the first `_` is kept, the `_` becomes a space and the rest
      is kept as it is, underscores included. */
  lemma LabelAtFirstUnderscore(head: string, tail: string)
    requires '_' !in head
    ensures StatusLabel(head + "_" + tail) == head + " " + tail
  {
    var s := head + "_" + tail;
    assert s[|head|] == '_';
    assert forall i :: 0 <= i < |head| ==> s[i] == head[i];
    assert FirstIndex(s, '_') == |head|;
    assert s[..|head|] == head && s[|head| + 1..] == tail;
  }

  /** `bot_responding` is shown as "bot responding". */
  lemma BotRespondingLabel(status: string)
    requires status == ConversationStatuses[1]
    ensures StatusLabel(status) == "bot" + " " + "responding"
  {
    assert status == "bot" + "_" + "responding";
    LabelAtFirstUnderscore("bot", "responding");
  }

  /** With two underscores the second is kept: `a_b_c` is shown as "a b_c". */
  lemma OnlyFirstUnderscore(status: string)
    requires status == "a_b_c"
    ensures StatusLabel(status) == "a b_c"
  {
    assert status == "a" + "_" + "b_c";
    LabelAtFirstUnderscore("a", "b_c");
  }

  datatype Tone = Warning | Info | Destructive | Success | Muted

  datatype StatusIcon = AlertCircle | MessageSquare | CheckCircle

  /** `getStatusColor`: muted exactly for a status that is not one of the four. */
  function ColorOf(status: string): (tone: Tone)
    ensures tone == Muted <==> status !in ConversationStatuses
  {
    match status
    case "waiting" => Warning
    case "bot_responding" => Info
    case "escalated" => Destructive
    case "resolved" => Success
    case _ => Muted
  }

  /** `getStatusIcon`: the alert for waiting and escalated, the check mark
      for resolved, the speech bubble for bot responding and anything else. */
  function IconOf(status: string): (icon: StatusIcon)
    ensures icon == AlertCircle <==> status == "waiting" || status == "escalated"
    ensures icon == CheckCircle <==> status == "resolved"
    ensures status !in ConversationStatuses ==> icon == MessageSquare
  {
    match status
    case "waiting" => AlertCircle
    case "bot_responding" => MessageSquare
    case "escalated" => AlertCircle
    case "resolved" => CheckCircle
    case _ => MessageSquare
  }

  /** The four statuses have four colours but only three icons: waiting and
      escalated share one, and bot responding shows the fallback icon. */
  lemma StatusTables()
    ensures forall i, j :: 0 <= i < j < |ConversationStatuses| ==>
              ColorOf(ConversationStatuses[i]) != ColorOf(ConversationStatuses[j])
    ensures IconOf("waiting") == IconOf("escalated")
    ensures IconOf("bot_responding") == IconOf("unknown")
  {
  }
}
