/**
 * The tenants page (src/pages/Tenants.tsx): the tenant list with its search,
 * the create dialog whose form adds a tenant unless the name is blank, and
 * what each tenant card shows (status badge, conversation total, the first
 * two numbers and how many more there are).
 *
 * The new tenant's id and creation date come from the clock in the view;
 * here they are parameters.
 */
module Tenants {
  import opened Common
  import opened Text
  import opened MockData

  /** The search rule: the name or the description contains the term, ignoring case. */
  function TenantMatches(t: Tenant, term: string): (found: bool)
    ensures term == "" ==> found
    ensures found ==> |term| <= |t.name| || |term| <= |t.description|
  {
    MatchesIgnoringCase(t.name, term) || MatchesIgnoringCase(t.description, term)
  }

  /** `filteredTenants`: the matching tenants, in order. */
  function FilteredTenants(tenants: seq<Tenant>, term: string): (r: seq<Tenant>)
    ensures IsSubsequence(r, tenants)
    ensures forall i :: 0 <= i < |r| ==> r[i] in tenants && TenantMatches(r[i], term)
    ensures forall i :: 0 <= i < |tenants| && TenantMatches(tenants[i], term) ==> tenants[i] in r
    ensures forall t :: multiset(r)[t] == if TenantMatches(t, term) then multiset(tenants)[t] else 0
  {
    FilterMultiset(tenants, (t: Tenant) => TenantMatches(t, term));
    FilterIsSubsequence(tenants, (t: Tenant) => TenantMatches(t, term));
    Filter(tenants, (t: Tenant) => TenantMatches(t, term))
  }

  /** An empty search lists every tenant. */
  lemma EmptySearchListsAll(tenants: seq<Tenant>)
    ensures FilteredTenants(tenants, "") == tenants
  {
    forall i | 0 <= i < |tenants|
      ensures TenantMatches(tenants[i], "")
    {
      EmptyTermMatches(tenants[i].name);
    }
    FilterKeepsAll(tenants, (t: Tenant) => TenantMatches(t, ""));
  }

  /** A notification: its title, its text, and whether it is the error style. */
  datatype Toast = Toast(title: string, description: string, destructive: bool)

  /** The text of the confirmation after `name` was created. */
  function CreatedMessage(name: string): (msg: string)
    ensures |msg| >= 8 && msg[..8] == "Tenant \"" && name <= msg[8..]
  {
    assert ("Tenant \"" + name + "\" created successfully.")[8..] == name + "\" created successfully.";
    "Tenant \"" + name + "\" created successfully."
  }

  /** The tenant `handleCreateTenant` builds from the form: as typed, with no
      numbers, active. */
  function NewTenant(id: string, name: string, description: string, today: string): (t: Tenant)
    ensures t.name == name && t.description == description
    ensures t.phoneNumbers == [] && t.status == "active" && IsTenantStatus(t.status)
  {
    Tenant(id, name, description, [], today, "active")
  }

  /** The page state: the tenant list, the search term, the dialog and its form. */
  class TenantsPage {
    var tenants: seq<Tenant>
    var searchTerm: string
    var isCreateDialogOpen: bool
    var newName: string
    var newDescription: string

    /** Every tenant has one of the two statuses and a name that is not blank. */
    predicate Valid()
      reads this
    {
      forall i :: 0 <= i < |tenants| ==> IsTenantStatus(tenants[i].status) && !IsBlank(tenants[i].name)
    }

    /** The page opens on the sample tenants, with no search and the dialog
        closed on an empty form. */
    constructor()
      ensures Valid()
      ensures tenants == MockTenants && searchTerm == ""
      ensures !isCreateDialogOpen && newName == "" && newDescription == ""
    {
      tenants := MockTenants;
      searchTerm := "";
      isCreateDialogOpen := false;
      newName := "";
      newDescription := "";
      MockTenantsActive();
      assert !IsSpace(MockTenants[0].name[0]) && !IsSpace(MockTenants[1].name[0]);
    }

    /** Typing in the name field. */
    method SetName(value: string)
      modifies this
      ensures newName == value && newDescription == old(newDescription)
      ensures tenants == old(tenants) && searchTerm == old(searchTerm)
      ensures isCreateDialogOpen == old(isCreateDialogOpen)
    {
      newName := value;
    }

    /** Typing in the description field. */
    method SetDescription(value: string)
      modifies this
      ensures newDescription == value && newName == old(newName)
      ensures tenants == old(tenants) && searchTerm == old(searchTerm)
      ensures isCreateDialogOpen == old(isCreateDialogOpen)
    {
      newDescription := value;
    }

    /** Opening the dialog, or closing it with Cancel; the form is kept. */
    method SetDialogOpen(open: bool)
      modifies this
      ensures isCreateDialogOpen == open
      ensures newName == old(newName) && newDescription == old(newDescription)
      ensures tenants == old(tenants) && searchTerm == old(searchTerm)
    {
      isCreateDialogOpen := open;
    }

    /** Typing in the search field. */
    method SetSearchTerm(value: string)
      modifies this
      ensures searchTerm == value && tenants == old(tenants)
      ensures isCreateDialogOpen == old(isCreateDialogOpen)
      ensures newName == old(newName) && newDescription == old(newDescription)
    {
      searchTerm := value;
    }

    /** `handleCreateTenant`. A blank name raises the error notification and
        changes nothing. Otherwise the new tenant is appended after the
        existing ones, the form is emptied, the dialog closes and the
        confirmation names the tenant. */
    method HandleCreateTenant(id: string, today: string) returns (toast: Toast)
      requires Valid()
      modifies this
      ensures Valid()
      ensures IsBlank(old(newName)) ==>
                toast == Toast("Error", "Tenant name is required.", true) &&
                tenants == old(tenants) && isCreateDialogOpen == old(isCreateDialogOpen) &&
                newName == old(newName) && newDescription == old(newDescription)
      ensures !IsBlank(old(newName)) ==>
                toast == Toast("Success", CreatedMessage(old(newName)), false) &&
                tenants == old(tenants) + [NewTenant(id, old(newName), old(newDescription), today)] &&
                !isCreateDialogOpen && newName == "" && newDescription == ""
      ensures searchTerm == old(searchTerm)
    {
      if IsBlank(newName) {
        return Toast("Error", "Tenant name is required.", true);
      }
      var tenant := NewTenant(id, newName, newDescription, today);
      tenants := tenants + [tenant];
      newName := "";
      newDescription := "";
      isCreateDialogOpen := false;
      toast := Toast("Success", CreatedMessage(tenant.name), false);
    }
  }

  /** `phoneNumbers.reduce((sum, phone) => sum + phone.conversations, 0)`:
      no number's count exceeds it, and it is 0 without numbers. */
  function TotalConversations(numbers: seq<PhoneNumber>): (n: nat)
    ensures numbers == [] ==> n == 0
    ensures forall i :: 0 <= i < |numbers| ==> numbers[i].conversations <= n
    decreases |numbers|
  {
    if numbers == [] then 0 else numbers[0].conversations + TotalConversations(numbers[1..])
  }

  /** The total grows by the count of each number added at the end, as the
      left-to-right `reduce` adds them. */
  lemma {:induction false} TotalConversationsAppend(numbers: seq<PhoneNumber>, p: PhoneNumber)
    ensures TotalConversations(numbers + [p]) == TotalConversations(numbers) + p.conversations
    decreases |numbers|
  {
    if numbers != [] {
      assert (numbers + [p])[1..] == numbers[1..] + [p];
      TotalConversationsAppend(numbers[1..], p);
    }
  }

  /** The sample tenants' cards show 156 and 89 conversations. */
  lemma SampleTotals(a: Tenant, b: Tenant)
    requires a == MockTenants[0] && b == MockTenants[1]
    ensures TotalConversations(a.phoneNumbers) == 156
    ensures TotalConversations(b.phoneNumbers) == 89
  {
    MockTenantsActive();
    assert a.phoneNumbers[1..] == [];
    assert b.phoneNumbers[1..] == [];
  }

  /** The numbers listed on a card: the first two, or all when fewer. */
  function ShownNumbers(numbers: seq<PhoneNumber>): (r: seq<PhoneNumber>)
    ensures |r| == Min(2, |numbers|) && r <= numbers
  {
    numbers[..Min(2, |numbers|)]
  }

  /** The `+n more numbers` line: present exactly when there are more than
      two numbers, n being how many are not listed. */
  function MoreNumbers(numbers: seq<PhoneNumber>): (more: Option<nat>)
    ensures more.Some? <==> |numbers| > 2
    ensures more.Some? ==> |ShownNumbers(numbers)| + more.value == |numbers|
    ensures more.None? ==> ShownNumbers(numbers) == numbers
  {
    if |numbers| > 2 then Some(|numbers| - 2) else None
  }

  /** The "Connected Numbers" block is shown only when there is a number. */
  predicate ShowsNumbers(numbers: seq<PhoneNumber>)
  {
    |numbers| > 0
  }

  datatype StatusBadge = ActiveBadge | InactiveBadge

  /** `getStatusIcon` and `getStatusColor`: the check mark in the success
      colour for `active`, the cross in the destructive colour for anything else. */
  function BadgeOf(status: string): (b: StatusBadge)
    ensures b == ActiveBadge <==> status == "active"
  {
    if status == "active" then ActiveBadge else InactiveBadge
  }

  /** A new tenant's card shows the active badge, no conversations and no numbers. */
  lemma NewTenantCard(id: string, name: string, description: string, today: string)
    ensures BadgeOf(NewTenant(id, name, description, today).status) == ActiveBadge
    ensures TotalConversations(NewTenant(id, name, description, today).phoneNumbers) == 0
    ensures !ShowsNumbers(NewTenant(id, name, description, today).phoneNumbers)
    ensures MoreNumbers(NewTenant(id, name, description, today).phoneNumbers).None?
  {
  }
}
