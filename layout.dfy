/** The application shell: the navigation built from the route table for the
    signed-in role, the labels of its links and which of them is active. */
module Layout {
  import opened Common
  import opened Types
  import opened Seqs
  import opened Routes
  import Guard

  /** The translation keys `t.nav.*` of the navigation labels. */
  datatype NavKey = PosKey | SalesKey | ProductsKey | InventoryKey | CustomersKey
                  | ReportsKey | EmployeesKey | ExpensesKey | SettingsKey | AdminKey

  /** A link label: a translated key, or the raw path when none is mapped. */
  datatype Label = Translated(key: NavKey) | RawPath(path: string)

  /** `getRouteName(path)`: `routeMap[path] || path`. The ten navigable paths
      get their own translated labels; any other path is shown as itself. */
  function RouteName(path: string): (r: Label)
    ensures r.Translated? <==> path in ["/", "/sales", "/products", "/inventory", "/customers", "/reports",
                                        "/employees", "/expenses", "/settings", "/admin"]
    ensures r.RawPath? ==> r.path == path
    ensures r.Translated? && path == "/" ==> r.key == PosKey
    ensures r.Translated? && path == "/admin" ==> r.key == AdminKey
  {
    if path == "/" then Translated(PosKey)
    else if path == "/sales" then Translated(SalesKey)
    else if path == "/products" then Translated(ProductsKey)
    else if path == "/inventory" then Translated(InventoryKey)
    else if path == "/customers" then Translated(CustomersKey)
    else if path == "/reports" then Translated(ReportsKey)
    else if path == "/employees" then Translated(EmployeesKey)
    else if path == "/expenses" then Translated(ExpensesKey)
    else if path == "/settings" then Translated(SettingsKey)
    else if path == "/admin" then Translated(AdminKey)
    else RawPath(path)
  }

  datatype NavItem = NavItem(name: Label, href: string)

  /** The navigation filter: visible, role-restricted, a profile loaded, and the
      profile's role among the allowed ones. */
  function Shown(profile: Option<Profile>): RouteConfig -> bool
  {
    (route: RouteConfig) =>
      route.visible != Some(false) && route.allowedRoles.Some? && profile.Some?
      && profile.value.role in route.allowedRoles.value
  }

  function NavItems(routes: seq<RouteConfig>): (r: seq<NavItem>)
    ensures |r| == |routes|
    ensures forall k :: 0 <= k < |routes| ==> r[k] == NavItem(RouteName(routes[k].path), routes[k].path)
  {
    seq(|routes|, k requires 0 <= k < |routes| => NavItem(RouteName(routes[k].path), routes[k].path))
  }

  function Navigation(profile: Option<Profile>): seq<NavItem>
  {
    NavItems(Keep(RouteTable, Shown(profile)))
  }

  function Hrefs(items: seq<NavItem>): (r: seq<string>)
    ensures |r| == |items|
    ensures forall k :: 0 <= k < |items| ==> r[k] == items[k].href
  {
    seq(|items|, k requires 0 <= k < |items| => items[k].href)
  }

  /** The links each role sees, in table order: a cashier the point of sale and
      the sales; a manager also products, stock, customers, reports, employees and
      expenses; an admin also settings and the admin page; nobody without a profile. */
  lemma NavigationByRole(profile: Profile)
    ensures profile.role == Cashier ==>
      Hrefs(Navigation(Some(profile))) == ["/", "/sales"]
    ensures profile.role == Manager ==>
      Hrefs(Navigation(Some(profile))) ==
        ["/", "/sales", "/products", "/inventory", "/customers", "/reports", "/employees", "/expenses"]
    ensures profile.role == Admin ==>
      Hrefs(Navigation(Some(profile))) ==
        ["/", "/sales", "/products", "/inventory", "/customers", "/reports", "/employees", "/expenses", "/settings", "/admin"]
    ensures Navigation(None) == []
  {
    NoProfileNoLinks();
    NavigationHrefs(profile);
    RunsOfTable();
  }

  lemma NoProfileNoLinks()
    ensures Navigation(None) == []
  {
    KeepNone(RouteTable, Shown(None));
  }

  lemma RunsOfTable()
    ensures Paths(RouteTable)[2..4] == ["/", "/sales"]
    ensures Paths(RouteTable)[2..10] ==
      ["/", "/sales", "/products", "/inventory", "/customers", "/reports", "/employees", "/expenses"]
    ensures Paths(RouteTable)[2..12] ==
      ["/", "/sales", "/products", "/inventory", "/customers", "/reports", "/employees", "/expenses", "/settings", "/admin"]
  {
  }

  /** The links are the paths of one contiguous run of the table. */
  lemma NavigationHrefs(profile: Profile)
    ensures Hrefs(Navigation(Some(profile))) == Paths(RouteTable)[2..NavEnd(profile.role)]
  {
    ShownRoutes(profile);
    var hrefs := Hrefs(Navigation(Some(profile)));
    assert |hrefs| == NavEnd(profile.role) - 2;
    forall k | 0 <= k < |hrefs|
      ensures hrefs[k] == Paths(RouteTable)[k + 2]
    {
      assert hrefs[k] == RouteTable[2..NavEnd(profile.role)][k].path;
    }
  }

  /** The paths of a list of routes, in order. */
  function Paths(routes: seq<RouteConfig>): (r: seq<string>)
    ensures |r| == |routes|
    ensures forall k :: 0 <= k < |routes| ==> r[k] == routes[k].path
  {
    seq(|routes|, k requires 0 <= k < |routes| => routes[k].path)
  }

  /** The table positions a role's navigation reaches: from the point of sale
      (position 2) up to this bound. */
  function NavEnd(role: Role): nat
  {
    match role
    case Cashier => 4
    case Manager => 10
    case Admin => 12
  }

  /** The navigation keeps one contiguous run of the table. */
  lemma ShownRoutes(profile: Profile)
    ensures Keep(RouteTable, Shown(Some(profile))) == RouteTable[2..NavEnd(profile.role)]
  {
    forall i | 0 <= i < |RouteTable|
      ensures Shown(Some(profile))(RouteTable[i]) <==> 2 <= i < NavEnd(profile.role)
    {
      ShownAt(profile, i);
    }
    KeepRange(RouteTable, Shown(Some(profile)), 2, NavEnd(profile.role));
  }

  lemma ShownAt(profile: Profile, i: nat)
    requires i < |RouteTable|
    ensures Shown(Some(profile))(RouteTable[i]) <==> 2 <= i < NavEnd(profile.role)
  {
    EntryShape(i);
    ShownShape(profile, RouteTable[i], i);
  }

  lemma ShownShape(profile: Profile, route: RouteConfig, i: nat)
    requires i < 12
    requires route.visible == (if i < 2 then Some(false) else None)
    requires route.allowedRoles == Some(RolesAt(i))
    ensures Shown(Some(profile))(route) <==> 2 <= i < NavEnd(profile.role)
  {
  }

  /** The visible entries are private and have translated labels. */
  lemma VisibleEntries()
    ensures forall i :: 2 <= i < |RouteTable| ==> RouteTable[i].path !in Guard.PublicRoutes
    ensures forall i :: 2 <= i < |RouteTable| ==> RouteName(RouteTable[i].path).Translated?
  {
  }

  /** A table entry the navigation shows is private, allowed for the role, and
      has a translated label. */
  lemma ShownEntry(profile: Profile, i: nat)
    requires i < |RouteTable|
    requires Shown(Some(profile))(RouteTable[i])
    ensures RouteTable[i].path !in Guard.PublicRoutes
    ensures Allows(RouteTable[i], profile.role)
    ensures RouteName(RouteTable[i].path).Translated?
  {
    ShownAt(profile, i);
    VisibleEntries();
  }

  /** Every link is one the guard lets the same user open, and it is labelled
      with a translation rather than its raw path. */
  lemma NavigationAgreesWithGuard(profile: Profile, wildcard: (string, string) -> bool, k: nat)
    requires k < |Navigation(Some(profile))|
    ensures Guard.Decide(Guard.Session(false, true, Some(profile)), Navigation(Some(profile))[k].href, wildcard) == None
    ensures Navigation(Some(profile))[k].name.Translated?
  {
    ShownRoutes(profile);
    var i := k + 2;
    var route := RouteTable[i];
    assert Navigation(Some(profile))[k] == NavItem(RouteName(route.path), route.path);
    ShownAt(profile, i);
    ShownEntry(profile, i);
    EntryFound(i);
    OpensFor(profile, route, wildcard);
  }

  /** The guard lets a signed-in user with a loaded profile through to a private
      route the role is allowed on. */
  lemma OpensFor(profile: Profile, route: RouteConfig, wildcard: (string, string) -> bool)
    requires route.path !in Guard.PublicRoutes && FindRoute(route.path) == Some(route)
    requires Allows(route, profile.role)
    ensures Guard.Decide(Guard.Session(false, true, Some(profile)), route.path, wildcard) == None
  {
    Guard.PublicPaths(route.path, wildcard);
  }

  /** `location.pathname === item.href`. */
  predicate IsActive(pathname: string, item: NavItem)
  {
    pathname == item.href
  }

  /** Since paths are distinct, at most one link is highlighted. */
  lemma AtMostOneActive(profile: Option<Profile>, pathname: string)
    ensures forall i, j :: 0 <= i < j < |Navigation(profile)| ==>
      !(IsActive(pathname, Navigation(profile)[i]) && IsActive(pathname, Navigation(profile)[j]))
  {
    PathsDistinct();
    KeepDistinct(RouteTable, Shown(profile));
  }

  /** Filtering keeps paths distinct. */
  lemma {:induction false} KeepDistinct(routes: seq<RouteConfig>, p: RouteConfig -> bool)
    requires forall i, j :: 0 <= i < j < |routes| ==> routes[i].path != routes[j].path
    ensures forall i, j :: 0 <= i < j < |Keep(routes, p)| ==> Keep(routes, p)[i].path != Keep(routes, p)[j].path
  {
    if routes != [] {
      KeepDistinct(routes[1..], p);
      forall j | 0 <= j < |Keep(routes[1..], p)|
        ensures Keep(routes[1..], p)[j].path != routes[0].path
      {
        KeepContains(routes[1..], p, Keep(routes[1..], p)[j]);
      }
    }
  }

  /** The role caption under the username. */
  datatype RoleCaption = AdminCaption | ManagerCaption | CashierCaption

  /** `profile?.role === 'admin' ? … : profile?.role === 'manager' ? … : cashier`:
      without a profile the cashier caption is shown. */
  function Caption(profile: Option<Profile>): (c: RoleCaption)
    ensures c == AdminCaption <==> profile.Some? && profile.value.role == Admin
    ensures c == ManagerCaption <==> profile.Some? && profile.value.role == Manager
  {
    if profile.Some? && profile.value.role == Admin then AdminCaption
    else if profile.Some? && profile.value.role == Manager then ManagerCaption
    else CashierCaption
  }
}
