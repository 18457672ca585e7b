/**
 * The side navigation (src/components/layout/AppSidebar.tsx): nine links and
 * the rule that highlights the one the current path belongs to.
 */
module AppSidebar {

  datatype NavItem = NavItem(title: string, url: string)

  /** `navigationItems`, in menu order (the icons are left out). */
  const NavigationItems: seq<NavItem> := [
    NavItem("Dashboard", "/dashboard"),
    NavItem("Tenants", "/tenants"),
    NavItem("Templates", "/templates"),
    NavItem("Agent Management", "/agent-management"),
    NavItem("APIs & Tools", "/apis-and-tools"),
    NavItem("Conversations", "/conversations"),
    NavItem("Users & Roles", "/users"),
    NavItem("Analytics", "/analytics"),
    NavItem("Membership", "/membership")
  ]

  /** `isActive(url)`: the path is the item's url or lies below it. */
  function IsActive(currentPath: string, url: string): (active: bool)
    ensures active ==> url <= currentPath
  {
    currentPath == url || url + "/" <= currentPath
  }

  /** Active means: the url itself, or the url followed by `/` and anything. */
  lemma ActiveMeansSameOrBelow(currentPath: string, url: string)
    ensures IsActive(currentPath, url) <==>
              currentPath == url ||
              (|currentPath| > |url| && currentPath[..|url|] == url && currentPath[|url|] == '/')
  {
    if |currentPath| > |url| && currentPath[..|url|] == url && currentPath[|url|] == '/' {
      assert currentPath[..|url| + 1] == url + "/";
    }
    if url + "/" <= currentPath {
      assert currentPath[..|url|] == (url + "/")[..|url|];
    }
  }

  /** A path that merely starts with the url's characters, without a `/`
      after them, does not activate the item. */
  lemma BarePrefixNotActive(currentPath: string, url: string)
    requires |currentPath| > |url| && currentPath[..|url|] == url && currentPath[|url|] != '/'
    ensures !IsActive(currentPath, url)
  {
    ActiveMeansSameOrBelow(currentPath, url);
  }

  /** `/usersX` does not activate the Users & Roles item. */
  lemma UsersXNotActive(currentPath: string, url: string)
    requires url == NavigationItems[6].url && currentPath == url + "X"
    ensures !IsActive(currentPath, url)
  {
    assert currentPath[..|url|] == url;
    BarePrefixNotActive(currentPath, url);
  }

  /** Every path below a url activates it. */
  lemma NestedActivatesParent(url: string, rest: string)
    ensures IsActive(url + "/" + rest, url)
  {
    assert (url + "/" + rest)[..|url| + 1] == url + "/";
  }

  /** An integration page under `/apis-and-tools/api/` keeps the APIs & Tools
      item highlighted. */
  lemma IntegrationPathActivatesApisAndTools(url: string, integrationName: string)
    requires url == NavigationItems[4].url
    ensures IsActive(url + "/api/" + integrationName, url)
  {
    assert url + "/api/" + integrationName == url + "/" + ("api/" + integrationName);
    NestedActivatesParent(url, "api/" + integrationName);
  }

  /** No url is another's, and none lies below another. */
  predicate Unambiguous(urls: seq<string>)
  {
    forall i, j :: 0 <= i < |urls| && 0 <= j < |urls| && i != j ==>
      urls[i] != urls[j] && !(urls[i] + "/" <= urls[j])
  }

  /** Two urls active on one path: one of them lies below the other, or
      they are equal. */
  lemma BothActiveNested(path: string, u: string, v: string)
    requires IsActive(path, u) && IsActive(path, v) && |u| <= |v|
    ensures u == v || u + "/" <= v
  {
    if path != v {
      assert path[..|v|] == v;
      assert path[..|u| + 1] == u + "/";
      if |u| < |v| {
        assert v[..|u| + 1] == path[..|u| + 1];
      } else {
        assert u == path[..|u|];
      }
    }
  }

  /** With unambiguous urls, at most one item is active on any path. */
  lemma AtMostOneActiveAmong(urls: seq<string>, path: string)
    requires Unambiguous(urls)
    ensures forall i, j :: 0 <= i < j < |urls| && IsActive(path, urls[i]) ==> !IsActive(path, urls[j])
  {
    forall i, j | 0 <= i < j < |urls| && IsActive(path, urls[i])
      ensures !IsActive(path, urls[j])
    {
      if IsActive(path, urls[j]) {
        if |urls[i]| <= |urls[j]| {
          BothActiveNested(path, urls[i], urls[j]);
        } else {
          BothActiveNested(path, urls[j], urls[i]);
        }
      }
    }
  }

  function Urls(items: seq<NavItem>): (urls: seq<string>)
    ensures |urls| == |items|
    ensures forall i :: 0 <= i < |items| ==> urls[i] == items[i].url
  {
    seq(|items|, i requires 0 <= i < |items| => items[i].url)
  }

  /** A url of one segment: a `/` and then no other `/`. */
  predicate SingleSegment(url: string)
  {
    |url| >= 1 && url[0] == '/' && forall k :: 1 <= k < |url| ==> url[k] != '/'
  }

  /** Distinct one-segment urls are unambiguous: none continues with `/`. */
  lemma SingleSegmentsUnambiguous(urls: seq<string>)
    requires forall i :: 0 <= i < |urls| ==> SingleSegment(urls[i])
    requires forall i, j :: 0 <= i < j < |urls| ==> urls[i] != urls[j]
    ensures Unambiguous(urls)
  {
    forall i, j | 0 <= i < |urls| && 0 <= j < |urls| && i != j
      ensures urls[i] != urls[j] && !(urls[i] + "/" <= urls[j])
    {
      if |urls[i]| < |urls[j]| {
        assert urls[j][|urls[i]|] != '/';
      }
      if i > j {
        assert urls[j] != urls[i];
      }
    }
  }

  lemma FirstThreeSingleSegments()
    ensures SingleSegment(NavigationItems[0].url) && SingleSegment(NavigationItems[1].url)
    ensures SingleSegment(NavigationItems[2].url)
  {
  }

  lemma MiddleThreeSingleSegments()
    ensures SingleSegment(NavigationItems[3].url) && SingleSegment(NavigationItems[4].url)
    ensures SingleSegment(NavigationItems[5].url)
  {
  }

  lemma LastThreeSingleSegments()
    ensures SingleSegment(NavigationItems[6].url) && SingleSegment(NavigationItems[7].url)
    ensures SingleSegment(NavigationItems[8].url)
  {
  }

  /** Each of the nine urls is a single segment. */
  lemma NavigationSingleSegments()
    ensures forall i :: 0 <= i < |NavigationItems| ==> SingleSegment(NavigationItems[i].url)
  {
    FirstThreeSingleSegments();
    MiddleThreeSingleSegments();
    LastThreeSingleSegments();
  }

  /** The nine urls are distinct, and so are the nine titles (the list keys). */
  lemma NavigationDistinct()
    ensures forall i, j :: 0 <= i < j < |NavigationItems| ==> NavigationItems[i].url != NavigationItems[j].url
    ensures forall i, j :: 0 <= i < j < |NavigationItems| ==> NavigationItems[i].title != NavigationItems[j].title
  {
  }

  /** The nine urls are distinct single segments, so unambiguous. */
  lemma NavigationUnambiguous()
    ensures Unambiguous(Urls(NavigationItems))
  {
    NavigationSingleSegments();
    NavigationDistinct();
    SingleSegmentsUnambiguous(Urls(NavigationItems));
  }

  /** Whatever the path, at most one menu item is highlighted. */
  lemma AtMostOneItemActive(path: string)
    ensures forall i, j :: 0 <= i < j < |NavigationItems| && IsActive(path, NavigationItems[i].url) ==>
              !IsActive(path, NavigationItems[j].url)
  {
    NavigationUnambiguous();
    AtMostOneActiveAmong(Urls(NavigationItems), path);
  }
}
