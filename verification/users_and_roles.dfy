/**
 * The users and roles page (src/pages/UsersAndRoles.tsx): a user list
 * searched by name or e-mail, a role list searched by name, the permission
 * table of the selected role, and the icon of a user without an avatar.
 */
module UsersAndRoles {
  import opened Common
  import opened Text

  datatype User = User(id: nat, name: string, email: string, role: string, kind: string, avatar: Option<string>)

  datatype Role = Role(id: string, name: string, description: string)

  const MockUsers: seq<User> := [
    User(1, "Dania de la Puente", "dania@example.com", "Admin", "Human", Some("https://i.pravatar.cc/150?u=a042581f4e29026704d")),
    User(2, "Carlos Rodriguez", "carlos@example.com", "Editor", "Human", Some("https://i.pravatar.cc/150?u=a042581f4e29026704e")),
    User(3, "Support Bot", "support@agent.hswift.com", "Agent", "Agent", None),
    User(4, "Ana Gomez", "ana@example.com", "Viewer", "Human", Some("https://i.pravatar.cc/150?u=a042581f4e29026704f")),
    User(5, "System Process", "system@internal.hswift.com", "System", "System", None)
  ]

  const MockRoles: seq<Role> := [
    Role("admin", "Admin", "Full access to all features and settings."),
    Role("editor", "Editor", "Can create and manage templates and agents."),
    Role("agent", "Agent", "Interacts with conversations, limited access."),
    Role("viewer", "Viewer", "Read-only access to dashboards and analytics."),
    Role("system", "System", "Internal system processes.")
  ]

  /** `permissionsByRole`: role id, then permission group, then the granted actions. */
  const PermissionsByRole: map<string, map<string, seq<string>>> := map[
    "admin" := map["template_management" := ["create", "edit", "delete", "view"],
                   "user_management" := ["create", "edit", "delete", "view"],
                   "billing" := ["view", "manage"]],
    "editor" := map["template_management" := ["create", "edit", "delete", "view"],
                    "user_management" := ["view"],
                    "billing" := ["view"]],
    "agent" := map["template_management" := ["view"], "user_management" := [], "billing" := []],
    "viewer" := map["template_management" := ["view"], "user_management" := ["view"], "billing" := ["view"]],
    "system" := map["template_management" := [], "user_management" := [], "billing" := []]
  ]

  /** One group of the permission table: its key, its heading, and its
      actions with their captions, in display order. */
  datatype PermissionGroup = PermissionGroup(key: string, caption: string, actions: seq<(string, string)>)

  /** `allPermissions`, in display order. */
  const AllPermissions: seq<PermissionGroup> := [
    PermissionGroup("template_management", "Template Management",
      [("create", "Create Templates"), ("edit", "Edit Templates"), ("delete", "Delete Templates"), ("view", "View Templates")]),
    PermissionGroup("user_management", "User Management",
      [("create", "Create Users"), ("edit", "Edit Roles"), ("delete", "Delete Users"), ("view", "View Users & Roles")]),
    PermissionGroup("billing", "Billing & Membership",
      [("view", "View Invoices"), ("manage", "Manage Subscription")])
  ]

  /** The user search: the name or the e-mail contains the term, ignoring case. */
  function UserMatches(u: User, term: string): (found: bool)
    ensures term == "" ==> found
    ensures found ==> |term| <= |u.name| || |term| <= |u.email|
  {
    MatchesIgnoringCase(u.name, term) || MatchesIgnoringCase(u.email, term)
  }

  /** `filteredUsers`: the matching users, in order. */
  function FilteredUsers(users: seq<User>, term: string): (r: seq<User>)
    ensures IsSubsequence(r, users)
    ensures forall i :: 0 <= i < |r| ==> r[i] in users && UserMatches(r[i], term)
    ensures forall i :: 0 <= i < |users| && UserMatches(users[i], term) ==> users[i] in r
    ensures forall u :: multiset(r)[u] == if UserMatches(u, term) then multiset(users)[u] else 0
  {
    FilterMultiset(users, (u: User) => UserMatches(u, term));
    FilterIsSubsequence(users, (u: User) => UserMatches(u, term));
    Filter(users, (u: User) => UserMatches(u, term))
  }

  /** `filteredRoles`: the roles whose name contains the term ignoring case,
      in order; the description is not searched. */
  function FilteredRoles(roles: seq<Role>, term: string): (r: seq<Role>)
    ensures IsSubsequence(r, roles)
    ensures forall i :: 0 <= i < |r| ==> r[i] in roles && MatchesIgnoringCase(r[i].name, term)
    ensures forall i :: 0 <= i < |roles| && MatchesIgnoringCase(roles[i].name, term) ==> roles[i] in r
    ensures forall role :: multiset(r)[role] == if MatchesIgnoringCase(role.name, term) then multiset(roles)[role] else 0
  {
    FilterMultiset(roles, (role: Role) => MatchesIgnoringCase(role.name, term));
    FilterIsSubsequence(roles, (role: Role) => MatchesIgnoringCase(role.name, term));
    Filter(roles, (role: Role) => MatchesIgnoringCase(role.name, term))
  }

  /** An empty search lists every user and every role. */
  lemma EmptySearchListsAll(users: seq<User>, roles: seq<Role>)
    ensures FilteredUsers(users, "") == users
    ensures FilteredRoles(roles, "") == roles
  {
    forall i | 0 <= i < |users|
      ensures UserMatches(users[i], "")
    {
      EmptyTermMatches(users[i].name);
    }
    FilterKeepsAll(users, (u: User) => UserMatches(u, ""));
    forall i | 0 <= i < |roles|
      ensures MatchesIgnoringCase(roles[i].name, "")
    {
      EmptyTermMatches(roles[i].name);
    }
    FilterKeepsAll(roles, (role: Role) => MatchesIgnoringCase(role.name, ""));
  }

  /** A role whose description contains the term, but not its name, is not
      listed. */
  lemma DescriptionNotSearched(roles: seq<Role>, term: string, k: nat)
    requires k < |roles| && MatchesIgnoringCase(roles[k].description, term)
    requires !MatchesIgnoringCase(roles[k].name, term)
    ensures roles[k] !in FilteredRoles(roles, term)
  {
  }

  /** The checkbox of `perm` in group `key` for role `roleId`: ticked exactly
      when the role has the group and the group grants the action; a missing
      role or group leaves it unticked. */
  function Checked(grants: map<string, map<string, seq<string>>>, roleId: string, key: string, perm: string): (ticked: bool)
    ensures roleId !in grants ==> !ticked
    ensures roleId in grants && key !in grants[roleId] ==> !ticked
    ensures roleId in grants && key in grants[roleId] ==> (ticked <==> perm in grants[roleId][key])
  {
    roleId in grants && key in grants[roleId] && perm in grants[roleId][key]
  }

  /** Every role of the list has an entry in the permission table, with the
      three groups. */
  lemma EveryRoleHasGrants()
    ensures forall i :: 0 <= i < |MockRoles| ==> MockRoles[i].id in PermissionsByRole
    ensures forall r :: r in PermissionsByRole ==>
              PermissionsByRole[r].Keys == {"template_management", "user_management", "billing"}
  {
  }

  /** The admin role ticks every box of the table. */
  lemma AdminHoldsEverything(g: nat, a: nat)
    requires g < |AllPermissions| && a < |AllPermissions[g].actions|
    ensures Checked(PermissionsByRole, "admin", AllPermissions[g].key, AllPermissions[g].actions[a].0)
  {
  }

  /** The system role ticks none. */
  lemma SystemHoldsNothing(key: string, perm: string)
    ensures !Checked(PermissionsByRole, "system", key, perm)
  {
  }

  /** No role is granted anything the admin role is not. */
  lemma EveryRoleWithinAdmin(roleId: string, key: string, perm: string)
    requires Checked(PermissionsByRole, roleId, key, perm)
    ensures Checked(PermissionsByRole, "admin", key, perm)
  {
  }

  /** The first role, Admin, is the one selected when the page opens. */
  lemma InitialRoleIsAdmin(selected: Role)
    requires selected == MockRoles[0]
    ensures selected.id == "admin" && selected.name == "Admin"
  {
  }

  datatype UserGlyph = BotGlyph | ShieldGlyph | PersonGlyph

  /** `UserIcon`: the bot for an agent, the shield for the system, a person otherwise. */
  function UserIcon(kind: string): (g: UserGlyph)
    ensures g == BotGlyph <==> kind == "Agent"
    ensures g == ShieldGlyph <==> kind == "System"
  {
    if kind == "Agent" then BotGlyph
    else if kind == "System" then ShieldGlyph
    else PersonGlyph
  }
}
