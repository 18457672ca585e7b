/**
 * The application shell (src/App.tsx, with the plan lookup of
 * src/hooks/useUser.ts): the route table, the authentication guard and the
 * plan guard, as a function from the path and the sign-in state to what is
 * shown.
 *
 * A path is given as its segments (`/apis-and-tools/api/boe` is
 * `["apis-and-tools", "api", "boe"]`, `/` is `[]`); the sign-in state and the
 * plan claim of the profile come from the identity provider and are
 * parameters here.
 */
module App {
  import opened Common
  import opened Text

  datatype Page =
    | Landing | Login | Dashboard | Tenants | Conversations | Templates
    | AgentManagement | ApisAndTools | BoeIntegrationDetail | ToolSetConfiguration
    | UsersAndRoles | AgentConfiguration | Analytics | Membership | TenantConfig
    | NotFound

  /** What the router renders: the loading indicator, a redirect, a page,
      or something inside the application layout (sidebar and header). */
  datatype View =
    | Spinner
    | Navigate(to: string)
    | Screen(page: Page)
    | Layout(inner: View)

  /** Whether a view ends in a redirect. */
  predicate Redirects(v: View)
  {
    match v
    case Navigate(_) => true
    case Layout(inner) => Redirects(inner)
    case _ => false
  }

  /** The state `getAuth` reports. */
  datatype AuthState = AuthState(isLoading: bool, isAuthenticated: bool)

  /** `getPlan`: the profile's plan claim, or `free` when it is missing or
      empty (both are falsy for `||`). */
  function EffectivePlan(claim: Option<string>): (plan: string)
    ensures plan == "free" <==> claim.None? || claim.value == "" || claim.value == "free"
    ensures plan != "free" ==> claim == Some(plan)
  {
    if claim.Some? && claim.value != "" then claim.value else "free"
  }

  /** `ProtectedRoute`: the spinner while the sign-in state loads, a redirect
      to the login page when signed out, the child inside the layout
      otherwise. */
  function ProtectedRoute(auth: AuthState, child: View): (v: View)
    ensures auth.isLoading ==> v == Spinner
    ensures !auth.isLoading && !auth.isAuthenticated ==> v == Navigate("/login")
    ensures !auth.isLoading && auth.isAuthenticated ==> v == Layout(child)
  {
    if auth.isLoading then Spinner
    else if !auth.isAuthenticated then Navigate("/login")
    else Layout(child)
  }

  /** `PlanProtectedRoute`: the free plan is sent to the membership page,
      any other plan sees the child. */
  function PlanProtectedRoute(claim: Option<string>, child: View): (v: View)
    ensures EffectivePlan(claim) == "free" ==> v == Navigate("/membership")
    ensures EffectivePlan(claim) != "free" ==> v == child
  {
    if EffectivePlan(claim) == "free" then Navigate("/membership") else child
  }

  datatype Guard = Public | SignedIn | SignedInWithPlan

  /** A route pattern segment: a fixed name, or a named parameter that
      matches any non-empty segment. */
  datatype Segment = Fixed(name: string) | Param(name: string)

  datatype Route = Route(pattern: seq<Segment>, guard: Guard, page: Page)

  /** The routes in declaration order; the catch-all `*` is the fallback of
      `Resolve`. */
  const Routes: seq<Route> := [
    Route([], Public, Landing),
    Route([Fixed("login")], Public, Login),
    Route([Fixed("dashboard")], SignedIn, Dashboard),
    Route([Fixed("tenants")], SignedIn, Tenants),
    Route([Fixed("conversations")], SignedInWithPlan, Conversations),
    Route([Fixed("templates")], SignedInWithPlan, Templates),
    Route([Fixed("agent-management")], SignedInWithPlan, AgentManagement),
    Route([Fixed("apis-and-tools")], SignedInWithPlan, ApisAndTools),
    Route([Fixed("apis-and-tools"), Fixed("api"), Param("integrationName")], SignedInWithPlan, BoeIntegrationDetail),
    Route([Fixed("tools"), Param("toolSetName")], SignedIn, ToolSetConfiguration),
    Route([Fixed("users")], SignedIn, UsersAndRoles),
    Route([Fixed("agent"), Param("agentName"), Fixed("configure")], SignedIn, AgentConfiguration),
    Route([Fixed("analytics")], SignedInWithPlan, Analytics),
    Route([Fixed("membership")], SignedIn, Membership),
    Route([Fixed("tenant-config")], SignedIn, TenantConfig)
  ]

  /** Routes match without regard to case, as the router does by default:
      a fixed segment matches any spelling of its (lower-case) name. */
  predicate SegmentMatches(s: Segment, part: string)
  {
    match s
    case Fixed(name) => |part| == |name| && forall k :: 0 <= k < |part| ==> LowerChar(part[k]) == name[k]
    case Param(_) => part != ""
  }

  /** A fixed segment matches exactly the parts that lower-case to its name. */
  lemma FixedSegmentIsLower(name: string, part: string)
    ensures SegmentMatches(Fixed(name), part) <==> Lower(part) == name
  {
    if SegmentMatches(Fixed(name), part) {
      assert forall k :: 0 <= k < |part| ==> Lower(part)[k] == name[k];
    }
  }

  /** A pattern matches a path of as many segments, each matching its own. */
  predicate Matches(pattern: seq<Segment>, path: seq<string>)
  {
    |pattern| == |path| && forall k :: 0 <= k < |path| ==> SegmentMatches(pattern[k], path[k])
  }

  /** The first route from `i` on that matches `path`. */
  function FindFrom(routes: seq<Route>, path: seq<string>, i: nat): (r: Option<nat>)
    requires i <= |routes|
    ensures r.Some? ==> i <= r.value < |routes| && Matches(routes[r.value].pattern, path)
    ensures r.Some? ==> forall j :: i <= j < r.value ==> !Matches(routes[j].pattern, path)
    ensures r.None? ==> forall j :: i <= j < |routes| ==> !Matches(routes[j].pattern, path)
    decreases |routes| - i
  {
    if i == |routes| then None
    else if Matches(routes[i].pattern, path) then Some(i)
    else FindFrom(routes, path, i + 1)
  }

  /** A page behind its guards: public pages as they are; the others behind
      the sign-in guard, and the plan guard inside it where the route has one. */
  function Guarded(guard: Guard, auth: AuthState, claim: Option<string>, page: Page): (v: View)
    ensures guard == Public ==> v == Screen(page)
    ensures guard == SignedIn ==> v == ProtectedRoute(auth, Screen(page))
    ensures guard == SignedInWithPlan ==> v == ProtectedRoute(auth, PlanProtectedRoute(claim, Screen(page)))
  {
    match guard
    case Public => Screen(page)
    case SignedIn => ProtectedRoute(auth, Screen(page))
    case SignedInWithPlan => ProtectedRoute(auth, PlanProtectedRoute(claim, Screen(page)))
  }

  /** Route `i` matches `path` and no earlier route does. */
  predicate FirstMatch(routes: seq<Route>, path: seq<string>, i: int)
  {
    0 <= i < |routes| && Matches(routes[i].pattern, path) &&
    forall j :: 0 <= j < i ==> !Matches(routes[j].pattern, path)
  }

  /** What the router shows for a path: the first matching route behind its
      guards, or the not-found page when no route matches. */
  function Resolve(routes: seq<Route>, path: seq<string>, auth: AuthState, claim: Option<string>): (v: View)
    ensures (forall j :: 0 <= j < |routes| ==> !Matches(routes[j].pattern, path)) ==> v == Screen(NotFound)
    ensures forall i :: FirstMatch(routes, path, i) ==> v == Guarded(routes[i].guard, auth, claim, routes[i].page)
  {
    match FindFrom(routes, path, 0)
    case None => Screen(NotFound)
    case Some(i) => Guarded(routes[i].guard, auth, claim, routes[i].page)
  }

  /** Two segments spelled alike up to the case of their letters. */
  predicate EqualIgnoringCase(a: string, b: string)
  {
    |a| == |b| && forall m :: 0 <= m < |a| ==> LowerChar(a[m]) == LowerChar(b[m])
  }

  /** Paths that differ only in the case of their letters show the same:
      `/Dashboard` opens the dashboard as `/dashboard` does. */
  lemma ResolveIgnoresCase(routes: seq<Route>, p: seq<string>, q: seq<string>, auth: AuthState, claim: Option<string>)
    requires |p| == |q| && forall k :: 0 <= k < |p| ==> EqualIgnoringCase(p[k], q[k])
    ensures Resolve(routes, p, auth, claim) == Resolve(routes, q, auth, claim)
  {
    forall pattern: seq<Segment>
      ensures Matches(pattern, p) <==> Matches(pattern, q)
    {
      if |pattern| == |p| {
        forall k | 0 <= k < |p|
          ensures SegmentMatches(pattern[k], p[k]) <==> SegmentMatches(pattern[k], q[k])
        {
          assert EqualIgnoringCase(p[k], q[k]);
        }
      }
    }
    SameMatchesSameFind(routes, p, q, 0);
  }

  lemma {:induction false} SameMatchesSameFind(routes: seq<Route>, p: seq<string>, q: seq<string>, i: nat)
    requires i <= |routes|
    requires forall pattern: seq<Segment> :: Matches(pattern, p) <==> Matches(pattern, q)
    ensures FindFrom(routes, p, i) == FindFrom(routes, q, i)
    decreases |routes| - i
  {
    if i < |routes| {
      SameMatchesSameFind(routes, p, q, i + 1);
    }
  }

  /** `/Dashboard` is the dashboard. */
  lemma CapitalisedDashboard(routes: seq<Route>, auth: AuthState, claim: Option<string>)
    requires routes == Routes
    ensures Resolve(routes, ["Dashboard"], auth, claim) == Resolve(routes, ["dashboard"], auth, claim)
    ensures !auth.isLoading && auth.isAuthenticated ==>
              Resolve(routes, ["Dashboard"], auth, claim) == Layout(Screen(Dashboard))
  {
    if auth.isLoading || !auth.isAuthenticated {
      DashboardSpelling();
      ResolveIgnoresCase(routes, ["Dashboard"], ["dashboard"], auth, claim);
      return;
    }
    DashboardSpelling();
    ResolveIgnoresCase(routes, ["Dashboard"], ["dashboard"], auth, claim);
    DashboardRoute(routes);
    LowerNameMatches("dashboard");
    SignedInOnlyOutcome(routes, ["dashboard"], auth, claim, 2);
  }

  lemma DashboardRoute(routes: seq<Route>)
    requires routes == Routes
    ensures 2 < |routes| && routes[2] == Route([Fixed("dashboard")], SignedIn, Dashboard)
  {
  }

  lemma DashboardSpelling()
    ensures EqualIgnoringCase("Dashboard", "dashboard")
    ensures forall k :: 0 <= k < |"dashboard"| ==> !IsAsciiUpper("dashboard"[k])
  {
  }

  /** A one-segment path spelled as a lower-case route name matches it. */
  lemma LowerNameMatches(name: string)
    requires forall k :: 0 <= k < |name| ==> !IsAsciiUpper(name[k])
    ensures Matches([Fixed(name)], [name])
  {
    assert SegmentMatches(Fixed(name), name);
  }

  /** A route's distinguishing key: its length and its first segment's name. */
  function Key(pattern: seq<Segment>): (int, string)
  {
    if pattern == [] then (0, "") else (|pattern|, pattern[0].name)
  }

  /** No two routes share a key, and every route's first segment is fixed. */
  lemma RouteKeysDistinct(routes: seq<Route>)
    requires routes == Routes
    ensures forall i :: 0 <= i < |routes| && routes[i].pattern != [] ==> routes[i].pattern[0].Fixed?
    ensures forall i, j :: 0 <= i < j < |routes| ==> Key(routes[i].pattern) != Key(routes[j].pattern)
  {
  }

  /** Two patterns that start with a fixed segment and differ in key match
      no common path. */
  lemma DifferentKeysDisjoint(p: seq<Segment>, q: seq<Segment>, path: seq<string>)
    requires p == [] || p[0].Fixed?
    requires q == [] || q[0].Fixed?
    ensures Key(p) != Key(q) ==> !(Matches(p, path) && Matches(q, path))
  {
    if path != [] && Matches(p, path) && Matches(q, path) {
      assert SegmentMatches(p[0], path[0]) && SegmentMatches(q[0], path[0]);
      assert forall k :: 0 <= k < |p[0].name| ==> p[0].name[k] == LowerChar(path[0][k]) == q[0].name[k];
      assert p[0].name == q[0].name;
    }
  }

  /** No path matches two routes, so taking the first match is the same as
      taking the only one. */
  lemma AtMostOneRoute(routes: seq<Route>, path: seq<string>, i: nat, j: nat)
    requires routes == Routes
    requires i < j < |routes|
    ensures !(Matches(routes[i].pattern, path) && Matches(routes[j].pattern, path))
  {
    RouteKeysDistinct(routes);
    DifferentKeysDisjoint(routes[i].pattern, routes[j].pattern, path);
  }

  /** Any matching route is the first match. */
  lemma OnlyMatchIsFirst(routes: seq<Route>, path: seq<string>, i: nat)
    requires routes == Routes
    requires i < |routes| && Matches(routes[i].pattern, path)
    ensures FirstMatch(routes, path, i)
  {
    forall j | 0 <= j < i
      ensures !Matches(routes[j].pattern, path)
    {
      AtMostOneRoute(routes, path, j, i);
    }
  }

  /** The routes behind the plan guard are exactly conversations, templates,
      agent management, the integrations list and detail, and analytics;
      only the landing and login pages are public. */
  lemma GuardTable(i: nat)
    requires i < |Routes|
    ensures Routes[i].guard == SignedInWithPlan <==>
              Routes[i].page in {Conversations, Templates, AgentManagement, ApisAndTools, BoeIntegrationDetail, Analytics}
    ensures Routes[i].guard == Public <==> Routes[i].page in {Landing, Login}
  {
  }

  /** While the sign-in state loads nothing redirects: guarded pages show the
      spinner, and public pages and the not-found page are shown as usual. */
  lemma NoRedirectWhileLoading(routes: seq<Route>, path: seq<string>, auth: AuthState, claim: Option<string>)
    requires auth.isLoading
    ensures !Redirects(Resolve(routes, path, auth, claim))
    ensures Resolve(routes, path, auth, claim) == Spinner || Resolve(routes, path, auth, claim).Screen?
  {
  }

  /** Signed out, every route but the two public ones sends to the login page. */
  lemma SignedOutGoesToLogin(routes: seq<Route>, path: seq<string>, auth: AuthState, claim: Option<string>, i: nat)
    requires routes == Routes
    requires !auth.isLoading && !auth.isAuthenticated
    requires i < |routes| && Matches(routes[i].pattern, path) && routes[i].guard != Public
    ensures Resolve(routes, path, auth, claim) == Navigate("/login")
  {
    OnlyMatchIsFirst(routes, path, i);
  }

  /** Signed in on the free plan, a plan-guarded route shows the layout with
      a redirect to the membership page; on another plan it shows the page. */
  lemma PlanGuardOutcome(routes: seq<Route>, path: seq<string>, auth: AuthState, claim: Option<string>, i: nat)
    requires routes == Routes
    requires !auth.isLoading && auth.isAuthenticated
    requires i < |routes| && Matches(routes[i].pattern, path) && routes[i].guard == SignedInWithPlan
    ensures EffectivePlan(claim) == "free" ==> Resolve(routes, path, auth, claim) == Layout(Navigate("/membership"))
    ensures EffectivePlan(claim) != "free" ==> Resolve(routes, path, auth, claim) == Layout(Screen(routes[i].page))
  {
    OnlyMatchIsFirst(routes, path, i);
  }

  /** Signed in, a route with only the sign-in guard shows its page in the
      layout whatever the plan. */
  lemma SignedInOnlyOutcome(routes: seq<Route>, path: seq<string>, auth: AuthState, claim: Option<string>, i: nat)
    requires routes == Routes
    requires !auth.isLoading && auth.isAuthenticated
    requires i < |routes| && Matches(routes[i].pattern, path) && routes[i].guard == SignedIn
    ensures Resolve(routes, path, auth, claim) == Layout(Screen(routes[i].page))
  {
    OnlyMatchIsFirst(routes, path, i);
  }

  /** The redirect targets settle: the login page is public, and the
      membership page is not plan-guarded, so a signed-in free user sent
      there sees it instead of being redirected again. */
  lemma RedirectTargetsSettle(routes: seq<Route>, auth: AuthState, claim: Option<string>)
    requires routes == Routes
    ensures Resolve(routes, ["login"], auth, claim) == Screen(Login)
    ensures !auth.isLoading && auth.isAuthenticated ==>
              Resolve(routes, ["membership"], auth, claim) == Layout(Screen(Membership))
  {
    RedirectTargetRoutes(routes);
    RedirectTargetsSpelling();
    LowerNameMatches("login");
    LowerNameMatches("membership");
    OnlyMatchIsFirst(routes, ["login"], 1);
    OnlyMatchIsFirst(routes, ["membership"], 13);
  }

  lemma RedirectTargetRoutes(routes: seq<Route>)
    requires routes == Routes
    ensures 13 < |routes|
    ensures routes[1] == Route([Fixed("login")], Public, Login)
    ensures routes[13] == Route([Fixed("membership")], SignedIn, Membership)
  {
  }

  lemma RedirectTargetsSpelling()
    ensures forall k :: 0 <= k < |"login"| ==> !IsAsciiUpper("login"[k])
    ensures forall k :: 0 <= k < |"membership"| ==> !IsAsciiUpper("membership"[k])
  {
  }

  /** An integration detail path shows the detail page, whatever the
      integration's name, once it is not empty. */
  lemma IntegrationDetailRoute(routes: seq<Route>, name: string)
    requires routes == Routes && name != ""
    ensures Matches(routes[8].pattern, ["apis-and-tools", "api", name])
    ensures routes[8].page == BoeIntegrationDetail
  {
  }
}
