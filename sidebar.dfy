/**
 * components/Sidebar.tsx: the menu of each role, the active-item test and
 * the collapse toggle.
 */
module Sidebar {
  import opened Wrappers
  import opened Seqs

  datatype MenuItem = MenuItem(id: string, caption: string, href: string)

  const SuperAdminMenu := [
    MenuItem("dashboard", "Dashboard", "/super-admin"),
    MenuItem("projects", "Projets", "/projects"),
    MenuItem("users", "Utilisateurs", "/super-admin/users"),
    MenuItem("deliverables", "Livrables", "/deliverables"),
    MenuItem("notifications", "Notifications", "/notifications")
  ]

  const AdminMenu := [
    MenuItem("dashboard", "Dashboard", "/admin"),
    MenuItem("projects", "Mes Projets", "/projects"),
    MenuItem("deliverables", "Mes Livrables", "/deliverables"),
    MenuItem("notifications", "Notifications", "/notifications")
  ]

  const UserMenu := [
    MenuItem("dashboard", "Dashboard", "/user"),
    MenuItem("projects", "Mes Projets", "/projects"),
    MenuItem("deliverables", "Livrables", "/deliverables"),
    MenuItem("uploads", "Mes Uploads", "/uploads")
  ]

  /**
   * `menuConfigs[userRole]`: the menu of one of the three roles, and nothing
   * for any other string (such as "super-admin"), where the component's
   * `menuItems.map` would then fail.
   */
  function MenuFor(role: string): (menu: Option<seq<MenuItem>>)
    ensures menu.Some? <==> role == "super_admin" || role == "admin" || role == "user"
    ensures role == "super_admin" ==> menu == Some(SuperAdminMenu)
    ensures role == "admin" ==> menu == Some(AdminMenu)
    ensures role == "user" ==> menu == Some(UserMenu)
  {
    if role == "super_admin" then Some(SuperAdminMenu)
    else if role == "admin" then Some(AdminMenu)
    else if role == "user" then Some(UserMenu)
    else None
  }

  /** The role spelled with a hyphen, as the older users page passes it, has no menu. */
  lemma HyphenatedRoleHasNoMenu()
    ensures MenuFor("super-admin").None?
  {
  }

  /** Five items for the super admin, four for the others, each starting with the role's dashboard. */
  lemma MenuShapes()
    ensures |SuperAdminMenu| == 5 && |AdminMenu| == 4 && |UserMenu| == 4
    ensures SuperAdminMenu[0] == MenuItem("dashboard", "Dashboard", "/super-admin")
    ensures AdminMenu[0] == MenuItem("dashboard", "Dashboard", "/admin")
    ensures UserMenu[0] == MenuItem("dashboard", "Dashboard", "/user")
  {
  }

  /** The ids of a menu. */
  function ItemIds(menu: seq<MenuItem>): (ids: seq<string>)
    ensures |ids| == |menu|
    ensures forall i :: 0 <= i < |menu| ==> ids[i] == menu[i].id
  {
    if menu == [] then [] else [menu[0].id] + ItemIds(menu[1..])
  }

  /** Only the super admin gets the users page, and only the plain user gets the uploads page. */
  lemma RoleSpecificItems(role: string)
    requires MenuFor(role).Some?
    ensures "users" in ItemIds(MenuFor(role).value) <==> role == "super_admin"
    ensures "uploads" in ItemIds(MenuFor(role).value) <==> role == "user"
  {
    var ids := ItemIds(MenuFor(role).value);
    if role == "super_admin" {
      assert ids[2] == "users";
      assert ids == ["dashboard", "projects", "users", "deliverables", "notifications"];
    } else if role == "admin" {
      assert ids == ["dashboard", "projects", "deliverables", "notifications"];
    } else {
      assert ids[3] == "uploads";
      assert ids == ["dashboard", "projects", "deliverables", "uploads"];
    }
  }

  /** `isActive`: the item's href is exactly the active route. */
  predicate IsActive(activeRoute: string, item: MenuItem) {
    activeRoute == item.href
  }

  /** The highlighted items of a menu. */
  function ActiveItems(menu: seq<MenuItem>, activeRoute: string): (r: seq<MenuItem>)
    ensures forall item :: item in r <==> item in menu && item.href == activeRoute
  {
    Filter(menu, (item: MenuItem) => IsActive(activeRoute, item))
  }

  /** No two items of the menu lead to the same page. */
  ghost predicate DistinctHrefs(menu: seq<MenuItem>) {
    forall i, j :: 0 <= i < j < |menu| ==> menu[i].href != menu[j].href
  }

  /** With distinct hrefs, at most one item is highlighted. */
  lemma {:induction false} AtMostOneActive(menu: seq<MenuItem>, activeRoute: string)
    requires DistinctHrefs(menu)
    ensures |ActiveItems(menu, activeRoute)| <= 1
  {
    if menu != [] {
      var tail := menu[1..];
      var active := (item: MenuItem) => IsActive(activeRoute, item);
      assert ActiveItems(menu, activeRoute) == (if active(menu[0]) then [menu[0]] else []) + ActiveItems(tail, activeRoute);
      if menu[0].href == activeRoute {
        forall i | 0 <= i < |tail| ensures !active(tail[i]) {
          assert tail[i] == menu[i + 1];
        }
        FilterNone(tail, active);
      } else {
        AtMostOneActive(tail, activeRoute);
      }
    }
  }

  /** Every role's menu leads to distinct pages, so a route highlights at most one item. */
  lemma MenusHaveDistinctHrefs(role: string)
    requires MenuFor(role).Some?
    ensures DistinctHrefs(MenuFor(role).value)
  {
  }

  /**
   * The deliverables page passes '/livrables' and the default route is
   * '/dashboard': neither is the href of any item, so nothing is highlighted.
   */
  lemma UnknownRoutesHighlightNothing(role: string)
    requires MenuFor(role).Some?
    ensures ActiveItems(MenuFor(role).value, "/livrables") == []
    ensures ActiveItems(MenuFor(role).value, "/dashboard") == []
  {
    var menu := MenuFor(role).value;
    FilterNone(menu, (item: MenuItem) => IsActive("/livrables", item));
    FilterNone(menu, (item: MenuItem) => IsActive("/dashboard", item));
  }

  /** The collapse state of the sidebar. */
  class SidebarState {
    var isCollapsed: bool

    constructor (defaultCollapsed: bool)
      ensures isCollapsed == defaultCollapsed
    {
      isCollapsed := defaultCollapsed;
    }

    /** `toggleSidebar()`. */
    method Toggle()
      modifies this
      ensures isCollapsed == !old(isCollapsed)
    {
      isCollapsed := !isCollapsed;
    }
  }
}
