/**
 * The application sidebar (components/app-sidebar.tsx): five navigation
 * entries for everyone, an Administration group decided by the user's role,
 * and the active entry decided by the current path.
 */
module AppSidebar {
  import Seqs

  datatype NavItem = NavItem(title: string, href: string)

  const Navigation: seq<NavItem> := [
    NavItem("Home", "/"),
    NavItem("Dashboard", "/dashboard"),
    NavItem("Waste Tracker", "/waste-tracker"),
    NavItem("Rewards", "/rewards"),
    NavItem("Partners", "/partners")
  ]

  const AdminPanel := NavItem("Admin Panel", "/admin")
  const Analytics := NavItem("Analytics", "/analytics")

  /** `userRole` starts as "user" and nothing in the component changes it. */
  const InitialRole := "user"

  /** The Administration group is rendered for admins and recyclers. */
  predicate ShowsAdministration(role: string) {
    role == "admin" || role == "recycler"
  }

  /** The entries inside the Administration group. */
  function AdministrationItems(role: string): seq<NavItem> {
    (if role == "admin" then [AdminPanel] else []) + (if role == "admin" || role == "recycler" then [Analytics] else [])
  }

  /** Every entry the sidebar renders for a role. */
  function VisibleItems(role: string): seq<NavItem> {
    Navigation + (if ShowsAdministration(role) then AdministrationItems(role) else [])
  }

  /** The group is shown exactly for the roles that have an entry in it, so it is never empty. */
  lemma AdministrationNeverEmpty(role: string)
    ensures ShowsAdministration(role) <==> |AdministrationItems(role)| > 0
  {
  }

  /** The Admin Panel is offered to admins only; Analytics to admins and recyclers. */
  lemma AdminEntriesByRole(role: string)
    ensures AdminPanel in VisibleItems(role) <==> role == "admin"
    ensures Analytics in VisibleItems(role) <==> role == "admin" || role == "recycler"
  {
    assert AdminPanel !in Navigation;
    assert Analytics !in Navigation;
  }

  /** With the role the component starts with and keeps, only the five navigation entries appear. */
  lemma InitialRoleSeesNavigationOnly()
    ensures VisibleItems(InitialRole) == Navigation
  {
  }

  /** `isActive={pathname === href}`. */
  predicate IsActive(item: NavItem, pathname: string) {
    pathname == item.href
  }

  predicate DistinctHrefs(items: seq<NavItem>) {
    forall i, j :: 0 <= i < j < |items| ==> items[i].href != items[j].href
  }

  /** Among entries with distinct routes, at most one matches a path exactly. */
  lemma {:induction false} AtMostOneMatch(items: seq<NavItem>, pathname: string)
    requires DistinctHrefs(items)
    ensures |Seqs.Filter(items, (item: NavItem) => IsActive(item, pathname))| <= 1
  {
    var active := (item: NavItem) => IsActive(item, pathname);
    if items != [] {
      AtMostOneMatch(items[1..], pathname);
      if active(items[0]) {
        var tail := items[1..];
        assert forall j :: 0 <= j < |tail| ==> !active(tail[j]);
        Seqs.FilterKeepsNone(tail, active);
      }
    }
  }

  /** Whatever the role and path, at most one rendered entry is active. */
  lemma AtMostOneActive(role: string, pathname: string)
    ensures |Seqs.Filter(VisibleItems(role), (item: NavItem) => IsActive(item, pathname))| <= 1
  {
    AtMostOneMatch(VisibleItems(role), pathname);
  }
}
