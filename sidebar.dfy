/** The dashboard side menu: the items a signed-in user sees, chosen by
    the lower-cased role. */
module SidebarMenu {
  import opened Common

  /** A menu entry (its icon left out) and the lower-cased roles it is for. */
  datatype MenuItem = MenuItem(id: string, caption: string, roles: seq<string>)

  const DashboardItem := MenuItem("dashboard", "Dashboard", ["all"])
  const RequestsItem := MenuItem("requests", "Leave Requests", ["all"])
  const AnalyticsRoles := ["admin", "hr", "sbuhead"]
  const AnalyticsItem := MenuItem("analytics", "Analytics", AnalyticsRoles)

  /** `baseItems` */
  const BaseItems := [DashboardItem, RequestsItem, AnalyticsItem]

  /** `roleSpecificItems[role] || []` */
  function RoleItems(role: string): (items: seq<MenuItem>)
    ensures role !in ["admin", "employee", "siteincharge", "hr", "sbuhead"] ==> items == []
    ensures forall i :: 0 <= i < |items| ==> items[i].roles == [role]
  {
    match role
    case "admin" => [MenuItem("createUser", "Create User", ["admin"]),
                     MenuItem("manageUsers", "Manage Users", ["admin"]),
                     MenuItem("reports", "Reports", ["admin"])]
    case "employee" => [MenuItem("applyLeave", "Apply Leave", ["employee"]),
                        MenuItem("myLeaves", "My Leaves", ["employee"])]
    case "siteincharge" => [MenuItem("pendingApprovals", "Pending Approvals", ["siteincharge"]),
                            MenuItem("approvedRequests", "Approved Requests", ["siteincharge"])]
    case "hr" => [MenuItem("pendingApprovals", "Pending Approvals", ["hr"]),
                  MenuItem("rejectedRequests", "Rejected Requests", ["hr"])]
    case "sbuhead" => [MenuItem("finalApprovals", "Final Approvals", ["sbuhead"]),
                       MenuItem("exportData", "Export Data", ["sbuhead"])]
    case _ => []
  }

  /** `item => item.roles.includes('all') || item.roles.includes(role)` */
  function ShownTo(role: string): MenuItem -> bool {
    (item: MenuItem) => "all" in item.roles || role in item.roles
  }

  /** The base items a role sees: both general items, then Analytics for the
      roles it lists. */
  lemma BaseItemsShown(role: string)
    ensures Filter(BaseItems, ShownTo(role)) ==
              [DashboardItem, RequestsItem] + if role in AnalyticsRoles then [AnalyticsItem] else []
  {
    var rest := BaseItems[1..];
    assert rest[1..] == [AnalyticsItem];
    assert [AnalyticsItem][1..] == [];
    assert Filter([AnalyticsItem], ShownTo(role)) == if role in AnalyticsRoles then [AnalyticsItem] else [];
    assert Filter(rest, ShownTo(role)) == [RequestsItem] + Filter([AnalyticsItem], ShownTo(role));
  }

  lemma RoleItemsHaveNoAnalytics(role: string)
    ensures AnalyticsItem !in RoleItems(role)
  {
  }

  /** `getMenuItems` */
  function MenuItems(userRole: string): (items: seq<MenuItem>)
    ensures |items| >= 2 && items[0] == DashboardItem && items[1] == RequestsItem
    ensures AnalyticsItem in items <==> LowerCase(userRole) in AnalyticsRoles
    ensures var extra := RoleItems(LowerCase(userRole));
            |extra| <= |items| && items[|items| - |extra|..] == extra
  {
    var role := LowerCase(userRole);
    BaseItemsShown(role);
    RoleItemsHaveNoAnalytics(role);
    Filter(BaseItems, ShownTo(role)) + RoleItems(role)
  }

  /** The role strings the server and the forms store are matched verbatim
      after lower-casing, so `SBU Head` gets only the two general items. */
  lemma SbuHeadMenu(userRole: string)
    requires userRole == "SBU Head"
    ensures MenuItems(userRole) == [DashboardItem, RequestsItem]
  {
    var role := LowerCase(userRole);
    assert role[0] == LowerChar(userRole[0]) && role[1] == LowerChar(userRole[1]);
    GeneralItemsOnly(userRole);
  }

  /** Likewise `Site Incharge` gets only the two general items. */
  lemma SiteInchargeMenu(userRole: string)
    requires userRole == "Site Incharge"
    ensures MenuItems(userRole) == [DashboardItem, RequestsItem]
  {
    assert |LowerCase(userRole)| == 13;
    GeneralItemsOnly(userRole);
  }

  /** A role without items of its own and outside Analytics' list sees
      only the two general items. */
  lemma GeneralItemsOnly(userRole: string)
    requires RoleItems(LowerCase(userRole)) == [] && LowerCase(userRole) !in AnalyticsRoles
    ensures MenuItems(userRole) == [DashboardItem, RequestsItem]
  {
    BaseItemsShown(LowerCase(userRole));
  }

  /** `HR` gets Analytics and its own items. */
  lemma HrMenu(userRole: string)
    requires userRole == "HR"
    ensures MenuItems(userRole) == [DashboardItem, RequestsItem, AnalyticsItem] + RoleItems("hr")
  {
    var role := LowerCase(userRole);
    assert role[0] == LowerChar(userRole[0]) && role[1] == LowerChar(userRole[1]);
    assert role == "hr";
    BaseItemsShown(role);
  }

  /** `Admin` gets Analytics and its own items. */
  lemma AdminMenu(userRole: string)
    requires userRole == "Admin"
    ensures MenuItems(userRole) == [DashboardItem, RequestsItem, AnalyticsItem] + RoleItems("admin")
  {
    var role := LowerCase(userRole);
    assert role[0] == LowerChar(userRole[0]);
    assert role == "admin";
    BaseItemsShown(role);
  }

  /** `Employee` gets its own items but no Analytics. */
  lemma EmployeeMenu(userRole: string)
    requires userRole == "Employee"
    ensures MenuItems(userRole) == [DashboardItem, RequestsItem] + RoleItems("employee")
  {
    var role := LowerCase(userRole);
    assert role[0] == LowerChar(userRole[0]);
    assert role == "employee";
    BaseItemsShown(role);
  }
}
