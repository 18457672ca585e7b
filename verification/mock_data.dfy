/**
 * The fixed records the dashboard runs on (src/data/mockData.ts): users,
 * tenants with their WhatsApp numbers and approved message templates, the
 * four sample conversations, and the hard-wired login check.
 *
 * Status fields are strings, as they are at run time; the predicates below
 * name the values the record types allow.
 */
module MockData {
  import opened Common

  datatype Membership = Free | Pro | Premium

  datatype User = User(
    id: string, username: string, email: string, role: string,
    membership: Membership, createdAt: string, lastLogin: string)

  datatype MessageTemplate = MessageTemplate(
    id: string, name: string, content: string, variables: seq<string>,
    category: string, status: string)

  datatype PhoneNumber = PhoneNumber(
    id: string, number: string, whatsappConnected: bool,
    templates: seq<MessageTemplate>, conversations: nat)

  datatype Tenant = Tenant(
    id: string, name: string, description: string,
    phoneNumbers: seq<PhoneNumber>, createdAt: string, status: string)

  datatype Conversation = Conversation(
    id: string, contactName: string, contactPhone: string, status: string,
    lastMessage: string, lastActivity: string, currentAgent: string,
    messages: nat, tenantId: string, phoneNumberId: string)

  /**
   * The template the editor and the chat preview work on. The views import
   * it from the mock-data file, which does not declare it; its fields are the
   * ones they read. `examples` lists sample values per placeholder key in
   * the object's key order, or is missing.
   */
  datatype Template = Template(
    name: string, content: string, category: string, language: string,
    examples: Option<seq<(string, string)>>)

  /** The values a conversation's status may take, in board-column order. */
  const ConversationStatuses: seq<string> := ["waiting", "bot_responding", "escalated", "resolved"]

  predicate IsTenantStatus(s: string) { s == "active" || s == "inactive" }

  predicate IsTemplateStatus(s: string) { s == "approved" || s == "pending" || s == "rejected" }

  /* The three template texts, each written as its pieces: text, token,
     text, and so on. The strings are exactly the ones of the sample data. */

  /** "Hello {{name}}! Welcome to our store. How can we help you today?" */
  const WelcomeContent: string :=
    "Hello " + ("{{name}}" + ("! Welcome to our store." + " How can we help you today?"))

  /** "Your order {{order_id}} is {{status}}. Expected delivery: {{date}}" */
  const OrderStatusContent: string :=
    "Your order " + ("{{order_id}}" + (" is " + ("{{status}}" + (". Expected delivery: " + "{{date}}"))))

  /** "Hi {{patient_name}}, this is a reminder for your appointment on {{date}} at {{time}}." */
  const ReminderContent: string :=
    "Hi " + ("{{patient_name}}" + ((", this is a reminder" + " for your appointment on ")
      + ("{{date}}" + (" at " + ("{{time}}" + ".")))))

  const MockUsers: seq<User> := [
    User("1", "usuario", "admin@hswift.com", "admin", Pro, "2024-01-15", "2024-07-25"),
    User("2", "manager", "manager@hswift.com", "manager", Pro, "2024-02-10", "2024-07-24")
  ]

  const WelcomeMessage: MessageTemplate :=
    MessageTemplate("1", "Welcome Message", WelcomeContent, ["name"], "greeting", "approved")

  const OrderStatusMessage: MessageTemplate :=
    MessageTemplate("2", "Order Status", OrderStatusContent, ["order_id", "status", "date"], "order", "approved")

  const AppointmentReminderMessage: MessageTemplate :=
    MessageTemplate("3", "Appointment Reminder", ReminderContent, ["patient_name", "date", "time"], "reminder", "approved")

  const MockTenants: seq<Tenant> := [
    Tenant("1", "E-commerce Solutions", "Customer support for online retail",
      [PhoneNumber("1", "+1-555-0101", true, [WelcomeMessage, OrderStatusMessage], 156)],
      "2024-01-20", "active"),
    Tenant("2", "Healthcare Assistant", "Medical appointment scheduling and support",
      [PhoneNumber("2", "+1-555-0102", true, [AppointmentReminderMessage], 89)],
      "2024-02-15", "active")
  ]

  const MockConversations: seq<Conversation> := [
    Conversation("1", "John Smith", "+1-555-1234", "waiting", "I need help with my order",
      "2 minutes ago", "Order Support Bot", 3, "1", "1"),
    Conversation("2", "Maria Garcia", "+1-555-5678", "bot_responding", "What are your business hours?",
      "5 minutes ago", "FAQ Bot", 2, "1", "1"),
    Conversation("3", "David Wilson", "+1-555-9012", "escalated", "I want to speak to a human agent",
      "15 minutes ago", "Human Agent Required", 8, "1", "1"),
    Conversation("4", "Sarah Johnson", "+1-555-3456", "resolved", "Thank you for your help!",
      "1 hour ago", "Support Complete", 12, "1", "1")
  ]

  /** Every message template of every number of every tenant, in table order. */
  function AllMessageTemplates(): (ts: seq<MessageTemplate>)
    ensures ts == [WelcomeMessage, OrderStatusMessage, AppointmentReminderMessage]
    ensures forall i :: 0 <= i < |ts| ==> IsTemplateStatus(ts[i].status)
  {
    MockTenants[0].phoneNumbers[0].templates + MockTenants[1].phoneNumbers[0].templates
  }

  /** The login check: the one hard-wired credential pair yields the first user. */
  function AuthenticateUser(username: string, password: string): (r: Option<User>)
    ensures r.Some? <==> username == "usuario" && password == "pass"
    ensures r.Some? ==> r.value in MockUsers && r.value.username == username && r.value.role == "admin"
  {
    if username == "usuario" && password == "pass" then Some(MockUsers[0]) else None
  }

  /** How many conversations have the given status. */
  function CountWithStatus(cs: seq<Conversation>, status: string): (n: nat)
    ensures n <= |cs|
    ensures n == 0 <==> forall i :: 0 <= i < |cs| ==> cs[i].status != status
    decreases |cs|
  {
    if cs == [] then 0
    else (if cs[0].status == status then 1 else 0) + CountWithStatus(cs[1..], status)
  }

  /** Each of the four statuses occurs exactly once among the sample conversations,
      and no other status occurs. */
  lemma EachConversationStatusOnce()
    ensures forall s :: s in ConversationStatuses ==> CountWithStatus(MockConversations, s) == 1
    ensures forall i :: 0 <= i < |MockConversations| ==> MockConversations[i].status in ConversationStatuses
  {
    var cs := MockConversations;
    assert cs[1..][1..][1..][1..] == [];
    forall s | s in ConversationStatuses ensures CountWithStatus(cs, s) == 1 {
      assert CountWithStatus(cs[1..][1..][1..][1..], s) == 0;
    }
  }

  /** Both sample tenants are active, each with one connected number, carrying
      156 and 89 conversations. */
  lemma MockTenantsActive()
    ensures forall i :: 0 <= i < |MockTenants| ==> MockTenants[i].status == "active"
    ensures forall i :: 0 <= i < |MockTenants| ==>
              |MockTenants[i].phoneNumbers| == 1 && MockTenants[i].phoneNumbers[0].whatsappConnected
    ensures MockTenants[0].phoneNumbers[0].conversations == 156
    ensures MockTenants[1].phoneNumbers[0].conversations == 89
  {
  }
}
