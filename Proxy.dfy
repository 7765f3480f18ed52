/**
 * The request guard of proxy.ts: after the session lookup, a decision on
 * (signed in?, role, pathname) to redirect or let the request through, and
 * the set of paths (`config.matcher`) the guard runs on at all.
 */
module Proxy {
  import opened JsString

  /** The three role constants the guard compares with, and any other role value. */
  datatype Role = Admin | Customer | Seller | OtherRole(name: string)

  datatype Decision = Next | Redirect(target: string)

  /**
   * `proxy`, after the session lookup.  `role` is only consulted for a
   * signed-in user.  The branches are the source's, in the source's order,
   * including the two that test `!isAuthenticated` a second time.
   */
  function Decide(isAuthenticated: bool, role: Role, pathname: string): Decision {
    if !isAuthenticated then Redirect("/login")
    else if !isAuthenticated && StartsWith(pathname, "/cart") then Redirect("/login")
    else if !isAuthenticated && StartsWith(pathname, "/checkout") then Redirect("/login")
    else if role == Admin && StartsWith(pathname, "/customer") then Redirect("/admin")
    else if role == Admin && StartsWith(pathname, "/seller") then Redirect("/admin")
    else if role == Customer && StartsWith(pathname, "/admin") then Redirect("/customer")
    else if role == Customer && StartsWith(pathname, "/seller") then Redirect("/customer")
    else if role == Seller && StartsWith(pathname, "/admin") then Redirect("/seller")
    else if role == Seller && StartsWith(pathname, "/customer") then Redirect("/seller")
    else Next
  }

  // ----- The access rule the guard implements -------------------------------

  /** Each of the three roles has an area, and a home page at the same path. */
  function Area(role: Role): string
    requires !role.OtherRole?
  {
    match role
    case Admin => "/admin"
    case Customer => "/customer"
    case Seller => "/seller"
  }

  const Staff: seq<Role> := [Admin, Customer, Seller]

  /** A path is off limits to a role when it starts with another role's area. */
  predicate OffLimits(role: Role, pathname: string) {
    && !role.OtherRole?
    && exists other :: other in Staff && other != role && StartsWith(pathname, Area(other))
  }

  /** The areas differ in their second character, so a path starts with at most one of them. */
  lemma AreasExclusive(pathname: string)
    ensures !(StartsWith(pathname, "/admin") && StartsWith(pathname, "/customer"))
    ensures !(StartsWith(pathname, "/admin") && StartsWith(pathname, "/seller"))
    ensures !(StartsWith(pathname, "/customer") && StartsWith(pathname, "/seller"))
  {
    PrefixChar(pathname, "/admin", 1);
    PrefixChar(pathname, "/customer", 1);
    PrefixChar(pathname, "/seller", 1);
  }

  /** What is off limits, role by role. */
  lemma OffLimitsByRole(role: Role, pathname: string)
    ensures OffLimits(role, pathname) <==>
      match role
      case Admin => StartsWith(pathname, "/customer") || StartsWith(pathname, "/seller")
      case Customer => StartsWith(pathname, "/admin") || StartsWith(pathname, "/seller")
      case Seller => StartsWith(pathname, "/admin") || StartsWith(pathname, "/customer")
      case OtherRole(_) => false
  {
    assert Staff == [Admin, Customer, Seller];
    assert Admin in Staff && Customer in Staff && Seller in Staff;
    assert Area(Admin) == "/admin" && Area(Customer) == "/customer" && Area(Seller) == "/seller";
  }

  /**
   * The guard, rule by rule: a visitor who is not signed in goes to the login
   * page whatever the path; a signed-in user on another role's area goes to
   * their own area; everything else passes.  In particular the `/cart` and
   * `/checkout` tests never decide anything: they are dead code.
   */
  lemma DecideFollowsAccessRule(isAuthenticated: bool, role: Role, pathname: string)
    ensures Decide(isAuthenticated, role, pathname) ==
      if !isAuthenticated then Redirect("/login")
      else if OffLimits(role, pathname) then Redirect(Area(role))
      else Next
  {
    OffLimitsByRole(role, pathname);
  }

  /** A visitor who is not signed in is sent to the login page, whatever the path and role. */
  lemma SignedOutGoesToLogin(role: Role, pathname: string)
    ensures Decide(false, role, pathname) == Redirect("/login")
  {
  }

  /** A redirect to the login page happens exactly when the visitor is not signed in. */
  lemma LoginRedirectOnlyWhenSignedOut(isAuthenticated: bool, role: Role, pathname: string)
    ensures Decide(isAuthenticated, role, pathname) == Redirect("/login") <==> !isAuthenticated
  {
    DecideFollowsAccessRule(isAuthenticated, role, pathname);
  }

  /** Any role other than the three constants is never redirected once signed in. */
  lemma OtherRolesPass(name: string, pathname: string)
    ensures Decide(true, OtherRole(name), pathname) == Next
  {
  }

  /** A signed-in user of one of the three roles is let through on their own area's paths. */
  lemma OwnAreaPasses(role: Role, pathname: string)
    requires !role.OtherRole?
    requires StartsWith(pathname, Area(role))
    ensures Decide(true, role, pathname) == Next
  {
    DecideFollowsAccessRule(true, role, pathname);
    OffLimitsByRole(role, pathname);
    AreasExclusive(pathname);
  }

  /** The cart and checkout pages are open to every signed-in user. */
  lemma CartAndCheckoutOpenWhenSignedIn(role: Role)
    ensures Decide(true, role, "/cart") == Next
    ensures Decide(true, role, "/checkout") == Next
  {
    PrefixChar("/cart", "/customer", 2);
    PrefixChar("/checkout", "/customer", 2);
  }

  /** The area tests are raw string prefixes: "/sellerX" counts as the seller area. */
  lemma PrefixTestIsRaw()
    ensures Decide(true, Customer, "/sellerX") == Redirect("/customer")
    ensures Decide(true, Admin, "/customerX") == Redirect("/admin")
  {
  }

  // ----- Where the guard runs -----------------------------------------------

  /** A `config.matcher` entry: a fixed path, or `base/:path*` (the base and anything below it). */
  datatype Pattern = Exact(path: string) | Subtree(base: string)

  const Matcher: seq<Pattern> := [
    Exact("/customer"), Subtree("/customer"),
    Exact("/admin"), Subtree("/admin"),
    Exact("/seller"), Subtree("/seller"),
    Exact("/cart"),
    Exact("/checkout")
  ]

  predicate PatternMatches(p: Pattern, pathname: string) {
    match p
    case Exact(path) => pathname == path
    case Subtree(base) => pathname == base || StartsWith(pathname, base + "/")
  }

  predicate Guarded(pathname: string) {
    exists i :: 0 <= i < |Matcher| && PatternMatches(Matcher[i], pathname)
  }

  /** What a request meets: the guard's decision on the matched paths, pass-through elsewhere. */
  function Handle(isAuthenticated: bool, role: Role, pathname: string): Decision {
    if Guarded(pathname) then Decide(isAuthenticated, role, pathname) else Next
  }

  /** The matcher covers exactly the three areas (with what is below them), the cart and the checkout. */
  lemma GuardedPaths(pathname: string)
    ensures Guarded(pathname) <==>
      || pathname in {"/customer", "/admin", "/seller", "/cart", "/checkout"}
      || StartsWith(pathname, "/customer/")
      || StartsWith(pathname, "/admin/")
      || StartsWith(pathname, "/seller/")
  {
    if StartsWith(pathname, "/customer/") { assert PatternMatches(Matcher[1], pathname); }
    if StartsWith(pathname, "/admin/") { assert PatternMatches(Matcher[3], pathname); }
    if StartsWith(pathname, "/seller/") { assert PatternMatches(Matcher[5], pathname); }
    if pathname == "/customer" { assert PatternMatches(Matcher[0], pathname); }
    if pathname == "/admin" { assert PatternMatches(Matcher[2], pathname); }
    if pathname == "/seller" { assert PatternMatches(Matcher[4], pathname); }
    if pathname == "/cart" { assert PatternMatches(Matcher[6], pathname); }
    if pathname == "/checkout" { assert PatternMatches(Matcher[7], pathname); }
  }

  /**
   * No redirect loop: wherever a request is sent, the same visitor is let
   * through there.  For a signed-out visitor this holds only because the
   * login page is not guarded: the guard itself would send "/login" to
   * "/login" again.
   */
  lemma NoRedirectLoop(isAuthenticated: bool, role: Role, pathname: string)
    ensures Handle(isAuthenticated, role, pathname).Redirect? ==>
      Handle(isAuthenticated, role, Handle(isAuthenticated, role, pathname).target) == Next
  {
    var d := Handle(isAuthenticated, role, pathname);
    if d.Redirect? {
      if !isAuthenticated {
        GuardedPaths("/login");
      } else {
        DecideFollowsAccessRule(isAuthenticated, role, pathname);
        assert !role.OtherRole? && d.target == Area(role);
        OwnAreaPasses(role, d.target);
      }
    }
  }

  /** Without the matcher, a signed-out visitor on the login page would be redirected to it again. */
  lemma LoginPageWouldLoop()
    ensures Decide(false, Customer, "/login") == Redirect("/login")
    ensures Handle(false, Customer, "/login") == Next
  {
    GuardedPaths("/login");
  }

  /**
   * On a guarded path the raw prefix test agrees with the area's path
   * segment: "/sellerX" and the like never reach the guard.
   */
  lemma GuardedPrefixIsSegment(pathname: string, role: Role)
    requires Guarded(pathname)
    requires !role.OtherRole?
    ensures StartsWith(pathname, Area(role)) <==> pathname == Area(role) || StartsWith(pathname, Area(role) + "/")
  {
    GuardedPaths(pathname);
    AreasExclusive(pathname);
    var area := Area(role);
    if StartsWith(pathname, area + "/") {
      StartsWithExtended(pathname, area, "/");
    }
    StartsWithExtended(pathname, "/admin", "/");
    StartsWithExtended(pathname, "/customer", "/");
    StartsWithExtended(pathname, "/seller", "/");
    PrefixChar(pathname, "/cart", 2);
    PrefixChar(pathname, "/checkout", 2);
    PrefixChar(pathname, area, 2);
  }
}
