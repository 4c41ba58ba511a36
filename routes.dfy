/** The route table: every page's path, whether it appears in the navigation,
    and the roles allowed to open it. */
module Routes {
  import opened Common
  import opened Types

  datatype Page =
    | LoginPage | UnauthorizedPage | PosPage | SalesPage | ProductsPage | InventoryPage
    | CustomersPage | ReportsPage | EmployeesPage | ExpensesPage | SettingsPage | AdminPage

  /** A route; `visible` and `allowedRoles` are optional in the configuration. */
  datatype RouteConfig = RouteConfig(
    name: string,
    path: string,
    element: Page,
    visible: Option<bool>,
    allowedRoles: Option<seq<Role>>)

  const Everyone: seq<Role> := [Admin, Manager, Cashier]
  const Staff: seq<Role> := [Admin, Manager]
  const AdminOnly: seq<Role> := [Admin]

  const RouteTable: seq<RouteConfig> := [
    RouteConfig("Login", "/login", LoginPage, Some(false), Some(Everyone)),
    RouteConfig("Unauthorized", "/unauthorized", UnauthorizedPage, Some(false), Some(Everyone)),
    RouteConfig("نقطة البيع", "/", PosPage, None, Some(Everyone)),
    RouteConfig("المبيعات", "/sales", SalesPage, None, Some(Everyone)),
    RouteConfig("المنتجات", "/products", ProductsPage, None, Some(Staff)),
    RouteConfig("المخزون", "/inventory", InventoryPage, None, Some(Staff)),
    RouteConfig("العملاء", "/customers", CustomersPage, None, Some(Staff)),
    RouteConfig("التقارير", "/reports", ReportsPage, None, Some(Staff)),
    RouteConfig("الموظفين", "/employees", EmployeesPage, None, Some(Staff)),
    RouteConfig("المصروفات", "/expenses", ExpensesPage, None, Some(Staff)),
    RouteConfig("الإعدادات", "/settings", SettingsPage, None, Some(AdminOnly)),
    RouteConfig("لوحة الإدارة", "/admin", AdminPage, None, Some(AdminOnly))
  ]

  /** `routes.find(route => route.path === path)`. */
  function FindRoute(path: string): (r: Option<RouteConfig>)
    ensures r.None? <==> forall i :: 0 <= i < |RouteTable| ==> RouteTable[i].path != path
    ensures r.Some? ==> r.value in RouteTable && r.value.path == path
  {
    FindIn(RouteTable, path)
  }

  function FindIn(routes: seq<RouteConfig>, path: string): (r: Option<RouteConfig>)
    ensures r.None? <==> forall i :: 0 <= i < |routes| ==> routes[i].path != path
    ensures r.Some? ==> r.value in routes && r.value.path == path
  {
    if routes == [] then None
    else if routes[0].path == path then Some(routes[0])
    else FindIn(routes[1..], path)
  }

  /** Each table entry is the one its path finds. */
  lemma EntryFound(i: nat)
    requires i < |RouteTable|
    ensures FindRoute(RouteTable[i].path) == Some(RouteTable[i])
  {
    PathsDistinct();
  }

  /** The role check of a route: a route without `allowedRoles` lets anyone in. */
  predicate Allows(route: RouteConfig, role: Role)
  {
    route.allowedRoles.Some? ==> role in route.allowedRoles.value
  }

  /** The access policy the table encodes, stated independently: an admin may
      open everything, a manager everything but the settings and admin pages, a
      cashier only the login, unauthorized, point-of-sale and sales pages. */
  predicate MayOpen(role: Role, path: string)
  {
    match role
    case Admin => true
    case Manager => path != "/settings" && path != "/admin"
    case Cashier => path in {"/login", "/unauthorized", "/", "/sales"}
  }

  /** Every path appears once, so a path names one route. */
  lemma PathsDistinct()
    ensures forall i, j :: 0 <= i < j < |RouteTable| ==> RouteTable[i].path != RouteTable[j].path
  {
  }

  /** Every route declares its roles, and every route admits an admin. */
  lemma RolesDeclared()
    ensures forall i :: 0 <= i < |RouteTable| ==> RouteTable[i].allowedRoles.Some?
    ensures forall i :: 0 <= i < |RouteTable| ==> Admin in RouteTable[i].allowedRoles.value
  {
  }

  /** The table grants exactly the access the policy describes, for every role
      and every route. */
  lemma TableMatchesPolicy(role: Role, path: string)
    requires FindRoute(path).Some?
    ensures Allows(FindRoute(path).value, role) <==> MayOpen(role, path)
  {
    var route := FindRoute(path).value;
    var i :| 0 <= i < |RouteTable| && RouteTable[i] == route;
    EntryMatchesPolicy(role, i);
  }

  lemma EntryMatchesPolicy(role: Role, i: nat)
    requires i < |RouteTable|
    ensures Allows(RouteTable[i], role) <==> MayOpen(role, RouteTable[i].path)
  {
    if i < 4 {
      assert RouteTable[i].allowedRoles == Some(Everyone);
    } else if i < 10 {
      assert RouteTable[i].allowedRoles == Some(Staff);
    } else {
      assert RouteTable[i].allowedRoles == Some(AdminOnly);
    }
  }

  /** The roles the entry at table position `i` admits: everyone up to the sales
      page, staff up to the expenses page, then the admin only. */
  function RolesAt(i: nat): seq<Role>
  {
    if i < 4 then Everyone else if i < 10 then Staff else AdminOnly
  }

  /** The shape of the table: the first two entries are hidden, every entry
      declares its roles, and they narrow as the table goes on. */
  lemma EntryShape(i: nat)
    requires i < |RouteTable|
    ensures RouteTable[i].visible == (if i < 2 then Some(false) else None)
    ensures RouteTable[i].allowedRoles == Some(RolesAt(i))
  {
    if i < 2 {
    } else if i < 4 {
    } else if i < 7 {
    } else if i < 10 {
    } else {
    }
  }

  /** Only the login and unauthorized routes are hidden from the navigation. */
  lemma HiddenRoutes()
    ensures forall i :: 0 <= i < |RouteTable| ==>
      (RouteTable[i].visible == Some(false) <==> RouteTable[i].path in {"/login", "/unauthorized"})
  {
  }
}
