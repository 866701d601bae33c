/** The static admin navigation tree the sidebar composer prunes. */
module SidebarConfig {
  import opened Base

  /**
   * A navigation node; `moduleKey` is the source's `module` property. Absent and `null` properties are both `None`;
   * `children` records whether the node has a children array.
   */
  datatype NavNode = NavNode(
    key: string,
    title: string,  // the source's `label`
    icon: Option<string>,
    route: Option<string>,
    moduleKey: Option<string>,
    permission: Option<string>,
    domain: Option<string>,
    children: Children)

  /** A node's `children` property: absent, or an array (possibly empty). */
  datatype Children = NoChildren | Children(nodes: seq<NavNode>)

  /** A child entry of the tree: route, module and permission, no icon or domain. */
  function Leaf(key: string, title: string, route: string, moduleKey: string, permission: string): NavNode {
    NavNode(key, title, None, Some(route), Some(moduleKey), Some(permission), None, NoChildren)
  }

  const DashboardNode: NavNode :=
    NavNode("DASHBOARD", "Dashboard", Some("dashboard"), Some("/dashboard"),
            Some("DASHBOARD"), None, Some("COMMON"), NoChildren)

  const EducationChildren: seq<NavNode> := [
    Leaf("STUDENTS", "Students", "/education/students", "STUDENTS", "STUDENT_VIEW"),
    Leaf("ATTENDANCE", "Attendance", "/education/attendance", "ATTENDANCE", "ATTENDANCE_VIEW"),
    Leaf("FEES", "Fees", "/education/fees", "FEES", "FEES_VIEW")
  ]

  const EducationNode: NavNode :=
    NavNode("EDUCATION", "Education", Some("school"), None,
            Some("EDUCATION"), None, Some("EDUCATION"), Children(EducationChildren))

  const HealthcareNode: NavNode :=
    NavNode("HEALTHCARE", "Healthcare", Some("heart"), None,
            Some("HEALTHCARE"), None, Some("HEALTHCARE"),
            Children([Leaf("APPOINTMENTS", "Appointments", "/healthcare/appointments",
                       "APPOINTMENTS", "APPOINTMENT_VIEW")]))

  const AdminChildren: seq<NavNode> := [
    Leaf("USERS", "Users", "/admin/users", "USERS", "USER_VIEW"),
    Leaf("SETTINGS", "Settings", "/admin/settings", "SETTINGS", "SETTINGS_VIEW"),
    Leaf("ROLES", "Roles", "/admin/roles", "ROLES", "ROLE_VIEW"),
    Leaf("TENANT_PROFILE", "Tenant Profile", "/admin/tenant-profile", "TENANT_PROFILE", "TENANT_PROFILE_VIEW"),
    Leaf("BRANDING", "Branding", "/admin/branding", "BRANDING", "BRANDING_VIEW"),
    Leaf("PERMISSIONS", "Permissions", "/admin/permissions", "PERMISSIONS", "PERMISSION_VIEW"),
    Leaf("SIDEBAR", "Sidebar", "/admin/sidebar", "SIDEBAR", "SIDEBAR_VIEW"),
    Leaf("TENANT_MODULES", "Tenant Modules", "/admin/tenant-modules", "TENANT_MODULES", "TENANT_MODULES_VIEW"),
    Leaf("AUDIT_LOGS", "Audit Logs", "/admin/audit-logs", "AUDIT_LOGS", "AUDIT_LOG_VIEW")
  ]

  const AdminNode: NavNode :=
    NavNode("ADMIN", "Administration", Some("settings"), None,
            Some("ADMIN"), None, Some("COMMON"), Children(AdminChildren))

  /** `SIDEBAR_TREE`. */
  const SidebarTree: seq<NavNode> := [DashboardNode, EducationNode, HealthcareNode, AdminNode]
}
