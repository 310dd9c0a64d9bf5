/**
 * The sidebar (src/components/layout/SidebarNav.tsx): which navigation items a
 * role sees and which item is highlighted for the current path.
 */
module SidebarNav {
  import opened Wrappers
  import opened Types
  import opened SeqOps

  /** A menu entry (`text` is the source's `label`); the icon is presentation and left out. */
  datatype NavItem = NavItem(href: string, text: string, badge: Option<string>, roles: seq<UserRole>)

  const DashboardHref: string := "/admin/dashboard"

  function AllNavItems(): (r: seq<NavItem>)
    ensures |r| == 4 && r[0].href == DashboardHref
    ensures forall i, j :: 0 <= i < j < |r| ==> r[i].href != r[j].href
    ensures forall i :: 0 <= i < |r| ==> Admin in r[i].roles && Manager in r[i].roles
    ensures forall i :: 0 <= i < |r| ==> (Worker in r[i].roles <==> i < 2)
  {
    [ NavItem(DashboardHref, "Dashboard", None, [Admin, Manager, Worker]),
      NavItem("/admin/work-log", "Work Log", Some("New"), [Admin, Manager, Worker]),
      NavItem("/admin/attendance", "Attendance", None, [Admin, Manager]),
      NavItem("/admin/reports", "Reports", None, [Admin, Manager]) ]
  }

  function SettingsItem(): (item: NavItem)
    ensures forall role :: role in item.roles <==> role == Admin
    ensures item.href != DashboardHref && forall i :: 0 <= i < |AllNavItems()| ==> item.href != AllNavItems()[i].href
  {
    NavItem("/admin/settings", "Settings", None, [Admin])
  }

  /** The role shown before the mount effect has asked `getCurrentUserRole`. */
  const InitialRole: UserRole := Worker

  /** `allNavItems.filter(item => item.roles.includes(role))` */
  function VisibleNavItems(role: UserRole): (r: seq<NavItem>)
    ensures forall item :: item in r <==> item in AllNavItems() && role in item.roles
  {
    Filter(AllNavItems(), (item: NavItem) => role in item.roles)
  }

  /** `settingsItem.roles.includes(role)` */
  function CanViewSettings(role: UserRole): (b: bool)
    ensures b <==> role == Admin
  {
    role in SettingsItem().roles
  }

  /** Managers and Admins see all four main items, in declaration order. */
  lemma ManagersAndAdminsSeeAll(role: UserRole)
    requires role != Worker
    ensures VisibleNavItems(role) == AllNavItems()
  {
  }

  /** Workers see Dashboard and Work Log only. */
  lemma WorkersSeeTwo()
    ensures VisibleNavItems(Worker) == AllNavItems()[..2]
  {
  }

  /** Whether a main item is highlighted: exact match, or for any item but Dashboard a path prefix. */
  predicate IsActive(item: NavItem, pathname: string): (b: bool)
    ensures b ==> item.href <= pathname
    ensures item.href == pathname ==> b
  {
    pathname == item.href || (item.href != DashboardHref && item.href <= pathname)
  }

  /** Whether the Settings item is highlighted. */
  predicate IsSettingsActive(pathname: string): (b: bool)
    ensures b <==> |pathname| >= 15 && pathname[..15] == "/admin/settings"
  {
    SettingsItem().href <= pathname
  }

  /** Dashboard lights up on its exact path only; every other item on any path below its own. */
  lemma ActiveRule(item: NavItem, pathname: string)
    ensures item.href == DashboardHref ==> (IsActive(item, pathname) <==> pathname == DashboardHref)
    ensures item.href != DashboardHref ==> (IsActive(item, pathname) <==> item.href <= pathname)
    ensures IsActive(AllNavItems()[1], "/admin/work-log/42") && !IsActive(AllNavItems()[0], "/admin/dashboard/x")
    ensures IsSettingsActive("/admin/settings") && IsSettingsActive("/admin/settings/users")
    ensures !IsSettingsActive("/admin/dashboard")
  {
  }

  /**
   * Before the mount effect the sidebar shows the Worker view without
   * Settings; in the browser the stub then reports Admin, who sees
   * everything including Settings.
   */
  lemma RoleBeforeAndAfterMount()
    ensures VisibleNavItems(InitialRole) == AllNavItems()[..2] && !CanViewSettings(InitialRole)
    ensures var role := GetCurrentUserRole(true);
            VisibleNavItems(role) == AllNavItems() && CanViewSettings(role)
  {
    WorkersSeeTwo();
    ManagersAndAdminsSeeAll(Admin);
  }
}
