/** The desktop navigation of components/main-nav.tsx: five links, each
    highlighted when the current path is its page or lies below it. */
module MainNav {

  datatype NavItem = NavItem(title: string, href: string)

  const NavItems: seq<NavItem> := [
    NavItem("Home", "/"),
    NavItem("Dashboard", "/dashboard"),
    NavItem("Analytics", "/analytics"),
    NavItem("History", "/history"),
    NavItem("Settings", "/settings")
  ]

  /** The links' hrefs, which also serve as their React keys, are distinct,
      and each is an absolute path. */
  lemma NavKeysDistinct()
    ensures |NavItems| == 5
    ensures forall i, j :: 0 <= i < j < |NavItems| ==> NavItems[i].href != NavItems[j].href
    ensures forall i :: 0 <= i < |NavItems| ==> |NavItems[i].href| > 0 && NavItems[i].href[0] == '/'
  {
  }

  /** `s.startsWith(prefix)` */
  predicate StartsWith(s: string, prefix: string)
  {
    |prefix| <= |s| && s[..|prefix|] == prefix
  }

  /** `pathname === href || pathname.startsWith(`${href}/`)` */
  predicate IsActive(pathname: string, href: string)
    ensures IsActive(pathname, href) ==> StartsWith(pathname, href)
  {
    pathname == href || StartsWith(pathname, href + "/")
  }

  /** A link is active on its own page and on every page below it, but not
      on a sibling page that merely shares its prefix. */
  lemma ActiveBelow(href: string, rest: string)
    ensures IsActive(href, href)
    ensures IsActive(href + "/" + rest, href)
    ensures |rest| > 0 && rest[0] != '/' ==> !IsActive(href + rest, href)
  {
    assert (href + "/" + rest)[..|href + "/"|] == href + "/";
    if |rest| > 0 {
      var p := href + rest;
      assert p[|href|] == rest[0];
      assert |p| < |href + "/"| || p[..|href + "/"|][|href|] == p[|href|];
      assert (href + "/")[|href|] == '/';
    }
  }

  /** The home link is active on "/" itself and on paths beginning "//"
      only. */
  lemma HomeActive(pathname: string)
    ensures IsActive(pathname, "/") <==> pathname == "/" || StartsWith(pathname, "//")
    ensures IsActive(pathname, "/") && |pathname| >= 2 ==> pathname[1] == '/'
  {
    if IsActive(pathname, "/") && |pathname| >= 2 {
      ActiveSecondChar(pathname, "/");
    }
  }

  /** Every path an active link admits starts with that link's second
      character ("/" for the home link, which is active only on "/" and on
      paths beginning "//"). */
  lemma ActiveSecondChar(pathname: string, href: string)
    requires IsActive(pathname, href) && |href| >= 1
    ensures |pathname| >= 2 ==> pathname[1] == (href + "/")[1]
    ensures |pathname| < 2 ==> pathname == href
  {
    if pathname != href {
      assert pathname[..|href + "/"|] == href + "/";
      assert pathname[1] == pathname[..|href + "/"|][1];
    }
  }

  /** However the path looks, at most one of the five links is highlighted. */
  lemma AtMostOneActive(pathname: string, i: nat, j: nat)
    requires i < |NavItems| && j < |NavItems| && i != j
    ensures !(IsActive(pathname, NavItems[i].href) && IsActive(pathname, NavItems[j].href))
  {
    if IsActive(pathname, NavItems[i].href) && IsActive(pathname, NavItems[j].href) {
      ActiveSecondChar(pathname, NavItems[i].href);
      ActiveSecondChar(pathname, NavItems[j].href);
    }
  }

  /** The dashboard link on the dashboard and its sub-pages, not on
      "/dashboards"; the home link only on "/". */
  lemma ExamplePaths()
    ensures IsActive("/dashboard", "/dashboard") && IsActive("/dashboard/live", "/dashboard")
    ensures !IsActive("/dashboards", "/dashboard")
    ensures IsActive("/", "/") && !IsActive("/dashboard", "/")
    ensures IsActive("/settings/profile", "/settings")
  {
    ActiveBelow("/dashboard", "live");
    ActiveBelow("/dashboard", "s");
    ActiveBelow("/settings", "profile");
    assert !StartsWith("/dashboard", "//") by {
      assert "/dashboard"[1] != "//"[1];
    }
  }
}
