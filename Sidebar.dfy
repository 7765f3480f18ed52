/**
 * The dashboard sidebar of components/dashboard/Sidebar.tsx: the route
 * table chosen by role (routes/adminRoutes.ts, routes/sellerRoutes.ts,
 * routes/customerRoutes.ts) and the rule that marks an entry active.
 */
module Sidebar {
  import opened JsArray
  import opened JsString
  import Proxy

  /** A sidebar entry: its `href` and its `label` text (the icon is left out). */
  datatype Route = Route(href: string, text: string)

  const AdminRoutes: seq<Route> := [
    Route("/admin", "Dashboard"),
    Route("/admin/users", "Users"),
    Route("/admin/orders", "Orders"),
    Route("/admin/categories", "Categories"),
    Route("/admin/medicine", "Medicine")
  ]

  const SellerRoutes: seq<Route> := [
    Route("/seller/dashboard", "Dashboard"),
    Route("/seller/medicines", "Medicines"),
    Route("/seller/orders", "Orders")
  ]

  const CustomerRoutes: seq<Route> := [
    Route("/customer", "My Orders"),
    Route("/customer/profile", "Profile")
  ]

  /** The `switch (role)`: one table per upper-case role name, nothing for any other value. */
  function RoutesFor(role: string): seq<Route> {
    if role == "ADMIN" then AdminRoutes
    else if role == "SELLER" then SellerRoutes
    else if role == "CUSTOMER" then CustomerRoutes
    else []
  }

  /** The tables' sizes, and that only the three exact role names get any entry. */
  lemma RoutesByRole(role: string)
    ensures role == "ADMIN" ==> |RoutesFor(role)| == 5
    ensures role == "SELLER" ==> |RoutesFor(role)| == 3
    ensures role == "CUSTOMER" ==> |RoutesFor(role)| == 2
    ensures RoutesFor(role) != [] <==> role in {"ADMIN", "SELLER", "CUSTOMER"}
    ensures RoutesFor("admin") == []
  {
  }

  /** `NavItem`'s `isActive`. */
  predicate IsActive(pathname: string, href: string) {
    pathname == href || StartsWith(pathname, href + "/")
  }

  /** The entries highlighted on `pathname`. */
  function ActiveRoutes(routes: seq<Route>, pathname: string): seq<Route> {
    Filter(routes, (r: Route) => IsActive(pathname, r.href))
  }

  /**
   * Active means "the page itself or below it": an exact match is always
   * active, and activity is inherited down the path tree.
   */
  lemma ActiveIsSubtree(pathname: string, href: string, outer: string)
    ensures IsActive(href, href)
    ensures IsActive(pathname, href) ==> StartsWith(pathname, href)
    ensures IsActive(pathname, href) && IsActive(href, outer) ==> IsActive(pathname, outer)
  {
    StartsWithExtended(pathname, href, "/");
    if IsActive(pathname, href) && IsActive(href, outer) && pathname != href && href != outer {
      StartsWithExtended(pathname, href, "/");
      StartsWithTransitive(pathname, href, outer + "/");
    }
  }

  /** A prefix without the "/" boundary does not count: "/admin" is not active on "/administrator". */
  lemma PrefixNeedsBoundary()
    ensures StartsWith("/administrator", "/admin")
    ensures !IsActive("/administrator", "/admin")
  {
    PrefixChar("/administrator", "/admin/", 6);
  }

  /** Several entries can be active at once: on "/admin/users" both the dashboard and the users entry are. */
  lemma NestedEntriesBothActive()
    ensures ActiveRoutes(RoutesFor("ADMIN"), "/admin/users") == AdminRoutes[..2]
  {
    var p := "/admin/users";
    assert IsActive(p, "/admin") by { assert p[..7] == "/admin/"; }
    assert IsActive(p, "/admin/users");
    assert !IsActive(p, "/admin/orders") by { PrefixChar(p, "/admin/orders/", 7); }
    assert !IsActive(p, "/admin/categories") by { PrefixChar(p, "/admin/categories/", 7); }
    assert !IsActive(p, "/admin/medicine") by { PrefixChar(p, "/admin/medicine/", 7); }
    assert AdminRoutes == AdminRoutes[..2] + AdminRoutes[2..];
    FilterAppend(AdminRoutes[..2], AdminRoutes[2..], (r: Route) => IsActive(p, r.href));
    assert Filter(AdminRoutes[2..], (r: Route) => IsActive(p, r.href)) == [];
    FilterAllKept(AdminRoutes[..2], (r: Route) => IsActive(p, r.href));
  }

  /**
   * The guard's role for a role name: the model takes the guard's role
   * constants to be the same names as the sidebar's.
   */
  function GuardRole(role: string): Proxy.Role {
    if role == "ADMIN" then Proxy.Admin
    else if role == "SELLER" then Proxy.Seller
    else if role == "CUSTOMER" then Proxy.Customer
    else Proxy.OtherRole(role)
  }

  /** Every sidebar link of a role leads to a page the request guard lets that role through to. */
  lemma SidebarLinksPassGuard(role: string, i: int)
    requires 0 <= i < |RoutesFor(role)|
    ensures Proxy.Handle(true, GuardRole(role), RoutesFor(role)[i].href) == Proxy.Next
  {
    var href := RoutesFor(role)[i].href;
    var r := GuardRole(role);
    if role == "ADMIN" {
      assert r == Proxy.Admin && href[..|"/admin"|] == "/admin";
    } else if role == "SELLER" {
      assert r == Proxy.Seller && href[..|"/seller"|] == "/seller";
    } else {
      assert r == Proxy.Customer && href[..|"/customer"|] == "/customer";
    }
    Proxy.OwnAreaPasses(r, href);
  }
}
