/**
 * The API explorer of the Boe integration (src/pages/BoeIntegrationDetail.tsx):
 * a tree of folders and endpoints whose folders open and close, a search
 * over the top-level entries, and the colour badge of each HTTP method.
 *
 * Every tree level is its own component instance with its own set of open
 * folders. A folder's children are drawn by a fresh instance, mounted when
 * the folder opens, in which all folders start open.
 */
module BoeIntegrationDetail {
  import opened Common
  import opened Text

  datatype Header = Header(key: string, value: string)

  datatype Item =
    | Folder(id: string, name: string, children: seq<Item>)
    | Endpoint(
        id: string, verb: string, path: string, description: string, aiExplanation: string,
        headers: seq<Header>, params: seq<Header>, body: Option<string>)

  const AuthHeader: Header := Header("Authorization", "Bearer {{api_key}}")
  const JsonHeader: Header := Header("Content-Type", "application/json")

  /** `mockEndpoints`. The two bodies are the `JSON.stringify(…, null, 2)` texts. */
  const MockEndpoints: seq<Item> := [
    Folder("folder-users", "User Management", [
      Endpoint("get-users", "GET", "/users",
        "Retrieves a list of all users from the system.",
        "This endpoint fetches user data without requiring a request body. It is a read-only operation, ideal for populating user lists or dashboards.",
        [AuthHeader], [Header("page", "1"), Header("limit", "25")], None),
      Endpoint("get-user-by-id", "GET", "/users/{id}",
        "Retrieves a single user by their unique ID.",
        "Fetches detailed information for a specific user. The user ID must be provided in the URL path.",
        [AuthHeader], [], None)
    ]),
    Folder("folder-orders", "Order Processing", [
      Endpoint("create-order", "POST", "/orders",
        "Creates a new order with the provided product details.",
        "Use this endpoint to add a new order. The request body must contain the product ID and quantity. It returns the newly created order object, including its unique ID.",
        [AuthHeader, JsonHeader], [], Some("{\n  \"productId\": \"prod_12345\",\n  \"quantity\": 2\n}"))
    ]),
    Endpoint("update-inventory", "PUT", "/inventory/{itemId}",
      "Updates the stock level for a specific inventory item.",
      "This endpoint modifies an existing inventory item. The item's ID must be included in the URL path, and the new stock level should be in the request body.",
      [AuthHeader, JsonHeader], [], Some("{\n  \"stock\": 150\n}"))
  ]

  /** The endpoint selected when the page opens: the first endpoint of the first folder. */
  lemma InitialSelection()
    ensures MockEndpoints[0].Folder? && |MockEndpoints[0].children| >= 1
    ensures MockEndpoints[0].children[0].Endpoint? && MockEndpoints[0].children[0].id == "get-users"
  {
  }

  /** The ids of the folders among `items` (not their descendants). */
  function FolderIds(items: seq<Item>): (ids: set<string>)
    ensures forall i :: 0 <= i < |items| && items[i].Folder? ==> items[i].id in ids
    ensures forall id :: id in ids ==> exists i :: 0 <= i < |items| && items[i].Folder? && items[i].id == id
  {
    set i | 0 <= i < |items| && items[i].Folder? :: items[i].id
  }

  /** `toggleFolder` on a set: removes the id when present, adds it otherwise. */
  function Toggle(open: set<string>, folderId: string): (r: set<string>)
    ensures folderId in r <==> folderId !in open
    ensures forall id :: id != folderId ==> (id in r <==> id in open)
  {
    if folderId in open then open - {folderId} else open + {folderId}
  }

  /** Toggling the same folder twice restores the open set. */
  lemma ToggleTwiceRestores(open: set<string>, folderId: string)
    ensures Toggle(Toggle(open, folderId), folderId) == open
  {
  }

  /** One tree level's state: the items it shows and its open folders. */
  class EndpointTree {
    const items: seq<Item>
    const level: nat
    var openFolders: set<string>

    /** A new instance starts with every folder of its level open. */
    constructor(items: seq<Item>, level: nat)
      ensures this.items == items && this.level == level
      ensures openFolders == FolderIds(items)
    {
      this.items := items;
      this.level := level;
      openFolders := FolderIds(items);
    }

    /** `toggleFolder`. */
    method ToggleFolder(folderId: string)
      modifies this
      ensures openFolders == Toggle(old(openFolders), folderId)
    {
      if folderId in openFolders {
        openFolders := openFolders - {folderId};
      } else {
        openFolders := openFolders + {folderId};
      }
    }
  }

  /** What a tree draws for one item: a folder row, with the rows of its
      children one level deeper when open, or an endpoint row. */
  datatype View =
    | FolderView(id: string, name: string, level: nat, isOpen: bool, children: seq<View>)
    | EndpointView(id: string, verb: string, path: string, level: nat)

  /** The view of one item at `level`, the folder being open or not. The
      children's instance is new, so each child folder is open in it. */
  function ItemView(item: Item, isOpen: bool, level: nat): (v: View)
    ensures v.id == item.id && v.level == level && (v.FolderView? <==> item.Folder?)
    ensures v.FolderView? ==> v.isOpen == isOpen
    decreases item
  {
    match item
    case Folder(id, name, children) =>
      FolderView(id, name, level, isOpen,
        if isOpen then seq(|children|, i requires 0 <= i < |children| => ItemView(children[i], children[i].Folder?, level + 1))
        else [])
    case Endpoint(id, verb, path, _, _, _, _, _) => EndpointView(id, verb, path, level)
  }

  /** Everything one tree level draws, item by item. */
  function TreeView(items: seq<Item>, openFolders: set<string>, level: nat): (vs: seq<View>)
    ensures |vs| == |items|
    ensures forall i :: 0 <= i < |items| ==> vs[i] == ItemView(items[i], items[i].id in openFolders, level)
  {
    seq(|items|, i requires 0 <= i < |items| => ItemView(items[i], items[i].id in openFolders, level))
  }

  /** A closed folder draws no children; an open one draws one view per
      child, in order, one level deeper. */
  lemma ChildrenOnlyWhenOpen(item: Item, isOpen: bool, level: nat)
    requires item.Folder?
    ensures !isOpen ==> ItemView(item, isOpen, level).children == []
    ensures isOpen ==> |ItemView(item, isOpen, level).children| == |item.children|
    ensures isOpen ==> forall i :: 0 <= i < |item.children| ==>
              ItemView(item, isOpen, level).children[i].id == item.children[i].id &&
              ItemView(item, isOpen, level).children[i].level == level + 1
  {
  }

  /** A fresh tree draws every folder of its level open. */
  lemma FreshTreeShowsAllOpen(t: EndpointTree)
    requires t.openFolders == FolderIds(t.items)
    ensures forall i :: 0 <= i < |t.items| && t.items[i].Folder? ==>
              TreeView(t.items, t.openFolders, t.level)[i].isOpen
  {
  }

  /** Closing a folder removes its children from the drawing and changes no
      other item's view. */
  lemma ToggleChangesOneView(items: seq<Item>, openFolders: set<string>, level: nat, k: nat)
    requires k < |items| && items[k].Folder? && items[k].id in openFolders
    requires forall i :: 0 <= i < |items| && i != k ==> items[i].id != items[k].id
    ensures TreeView(items, Toggle(openFolders, items[k].id), level)[k].children == []
    ensures forall i :: 0 <= i < |items| && i != k ==>
              TreeView(items, Toggle(openFolders, items[k].id), level)[i] == TreeView(items, openFolders, level)[i]
  {
  }

  /** A top-level item passes the search when it has a name (folders only)
      that contains the term, ignoring case. */
  function NameMatches(item: Item, search: string): (found: bool)
    ensures found ==> item.Folder? && |search| <= |item.name|
    ensures item.Folder? && search == "" ==> found
  {
    item.Folder? && MatchesIgnoringCase(item.name, search)
  }

  /** `filteredEndpoints`: an empty search shows everything; otherwise the
      top-level items whose name matches, in order. Only top-level items are
      searched and endpoints have no name, so no endpoint is ever found. */
  function FilteredEndpoints(items: seq<Item>, search: string): (r: seq<Item>)
    ensures search == "" ==> r == items
    ensures search != "" ==> IsSubsequence(r, items) && forall i :: 0 <= i < |r| ==> r[i] in items
    ensures search != "" ==> forall i :: 0 <= i < |r| ==> r[i].Folder? && MatchesIgnoringCase(r[i].name, search)
    ensures search != "" ==> forall i :: 0 <= i < |items| && NameMatches(items[i], search) ==> items[i] in r
    ensures search != "" ==> forall item :: multiset(r)[item] == if NameMatches(item, search) then multiset(items)[item] else 0
  {
    if search == "" then items
    else
      FilterMultiset(items, (item: Item) => NameMatches(item, search));
      FilterIsSubsequence(items, (item: Item) => NameMatches(item, search));
      Filter(items, (item: Item) => NameMatches(item, search))
  }

  datatype BadgeStyle = Sky | Green | Amber | Red | Grey

  /** The badge colours by method. */
  const MethodColors: map<string, BadgeStyle> := map["GET" := Sky, "POST" := Green, "PUT" := Amber, "DELETE" := Red]

  /** `HttpMethodBadge`'s colour: the method's own, grey for any other. */
  function MethodBadge(verb: string): (style: BadgeStyle)
    ensures verb !in MethodColors ==> style == Grey
    ensures verb in MethodColors ==> style == MethodColors[verb] && style != Grey
  {
    if verb in MethodColors then MethodColors[verb] else Grey
  }

  /** Every endpoint of the sample tree, at the top level or inside a
      folder, has one of the four coloured methods, so none of them is drawn
      with the grey fallback. */
  lemma SampleVerbsColoured()
    ensures forall i :: 0 <= i < |MockEndpoints| && MockEndpoints[i].Endpoint? ==>
              MockEndpoints[i].verb in MethodColors && MethodBadge(MockEndpoints[i].verb) != Grey
    ensures forall i, j ::
              0 <= i < |MockEndpoints| && MockEndpoints[i].Folder? && 0 <= j < |MockEndpoints[i].children|
              && MockEndpoints[i].children[j].Endpoint? ==>
              MockEndpoints[i].children[j].verb in MethodColors && MethodBadge(MockEndpoints[i].children[j].verb) != Grey
  {
  }

  /** The four known methods have four different colours. */
  lemma KnownMethodsDistinctColors()
    ensures MethodBadge("GET") == Sky && MethodBadge("POST") == Green
    ensures MethodBadge("PUT") == Amber && MethodBadge("DELETE") == Red
  {
  }
}
