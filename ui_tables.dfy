/**
 * The constant tables of the grouped sidebar builder: the sidebar entry
 * each permission contributes, and the navigation groups of each tenant
 * type.
 */
module UiTables {
  import opened Base

  /** Where an entry attaches: nowhere, a fixed group, or a group per tenant type. */
  datatype ParentRef = NoParent | Fixed(key: string) | PerTenant(keys: map<string, string>)

  /** The `sidebar` part of a permission's UI entry (`label` is `title`). */
  datatype UiEntry = UiEntry(
    key: string,
    title: string,
    icon: string,
    route: string,
    moduleKey: Option<string>,
    parent: ParentRef,
    order: Option<int>)

  /** A group definition; every field is optional, as in `{ ...undefined }`. */
  datatype GroupDef = GroupDef(
    key: Option<string>,
    title: Option<string>,
    icon: Option<string>,
    parentKey: Option<string>,
    order: Option<int>)

  /** The group made for a key the tenant type does not define. */
  const NoGroup: GroupDef := GroupDef(None, None, None, None, None)

  function Restaurant(group: string): ParentRef {
    PerTenant(map["RESTAURANT" := group])
  }

  function SchoolOrCompany(school: string, company: string): ParentRef {
    PerTenant(map["SCHOOL" := school, "COMPANY" := company])
  }

  const PermissionUiMap: map<string, UiEntry> := map[
    "ORDERS_VIEW" :=
      UiEntry("ORDERS_LIST", "All Orders", "clipboard", "/orders", Some("RESTAURANT_ORDERS"), Restaurant("ORDERS"), Some(10)),
    "ORDERS_UPDATE_STATUS" :=
      UiEntry("KITCHEN", "Kitchen", "fire", "/kitchen", Some("RESTAURANT_ORDERS"), Restaurant("ORDERS"), Some(20)),
    "MENU_VIEW" :=
      UiEntry("MENU_ITEMS", "Menu Items", "utensils", "/menu", Some("RESTAURANT_MENU"), Restaurant("MENU"), Some(10)),
    "CUSTOMERS_VIEW" :=
      UiEntry("CUSTOMERS_LIST", "Customers", "users", "/customers", Some("RESTAURANT_CUSTOMERS"),
              Restaurant("CUSTOMERS"), Some(10)),
    "PAYMENTS_VIEW" :=
      UiEntry("PAYMENTS", "Payments", "credit-card", "/payments", Some("RESTAURANT_PAYMENTS"),
              Restaurant("PAYMENTS"), Some(10)),
    "REPORTS_VIEW" :=
      UiEntry("REPORTS", "Reports", "bar-chart", "/reports", Some("RESTAURANT_REPORTS"), Restaurant("REPORTS"), Some(10)),
    "ROLES_VIEW" :=
      UiEntry("ROLES", "Roles", "shield", "/admin/roles", Some("RESTAURANT_SETTINGS"), Restaurant("SECURITY"), Some(10)),
    "PERMISSIONS_VIEW" :=
      UiEntry("PERMISSIONS", "Permissions", "key", "/admin/permissions", Some("RESTAURANT_SETTINGS"),
              Restaurant("SECURITY"), Some(20)),
    "student.view" :=
      UiEntry("STUDENTS", "Students", "users", "/students", Some("STUDENTS"), SchoolOrCompany("ADMIN", "HR"), Some(10)),
    "attendance.view" :=
      UiEntry("ATTENDANCE", "Attendance", "calendar", "/attendance", Some("ATTENDANCE"),
              SchoolOrCompany("ACADEMICS", "HR"), Some(20)),
    "manage_students" :=
      UiEntry("USERS", "Users", "users", "/admin/users", Some("USERS"), SchoolOrCompany("ADMIN", "HR"), Some(30)),
    "manage_attendance" :=
      UiEntry("ATTENDANCE_ADMIN", "Attendance Admin", "calendar-check", "/admin/attendance", Some("ATTENDANCE"),
              SchoolOrCompany("SECURITY", "HR"), Some(40)),
    "role.view" :=
      UiEntry("ROLES", "Roles", "shield", "/admin/roles", Some("USERS"), SchoolOrCompany("ADMIN", "ADMIN"), Some(20)),
    "permission.view" :=
      UiEntry("PERMISSIONS", "Permissions", "key", "/admin/permissions", Some("USERS"),
              SchoolOrCompany("ADMIN", "ADMIN"), Some(30))
  ]

  function Def(key: string, title: string, icon: string, parentKey: Option<string>, order: int): GroupDef {
    GroupDef(Some(key), Some(title), Some(icon), parentKey, Some(order))
  }

  const SidebarGroupsByTenant: map<string, map<string, GroupDef>> := map[
    "SCHOOL" := map[
      "ADMIN" := Def("ADMIN", "Administration", "settings", None, 10),
      "ACADEMICS" := Def("ACADEMICS", "Academics", "book", None, 20),
      "SECURITY" := Def("SECURITY", "Security", "shield", Some("ADMIN"), 30)
    ],
    "COMPANY" := map[
      "ADMIN" := Def("ADMIN", "Admin Panel", "settings", None, 10),
      "HR" := Def("HR", "Human Resources", "users", None, 20),
      "SECURITY" := Def("SECURITY", "Access Control", "shield", Some("ADMIN"), 30)
    ],
    "RESTAURANT" := map[
      "ORDERS" := Def("ORDERS", "Orders", "shopping-bag", None, 20),
      "MENU" := Def("MENU", "Menu Management", "utensils", None, 30),
      "CUSTOMERS" := Def("CUSTOMERS", "Customers", "users", None, 40),
      "PAYMENTS" := Def("PAYMENTS", "Payments", "credit-card", None, 50),
      "REPORTS" := Def("REPORTS", "Reports & Analytics", "bar-chart", None, 60),
      "SETTINGS" := Def("SETTINGS", "Restaurant Settings", "settings", None, 70),
      "SECURITY" := Def("SECURITY", "Access Control", "shield", Some("SETTINGS"), 80)
    ]
  ]

  /** Whether a group definition names a parent (`g.parentKey` is truthy). */
  predicate HasParent(d: GroupDef) {
    d.parentKey.Some? && d.parentKey.value != ""
  }

  /**
   * The group tables are one level deep: a group that names a parent names
   * a group of the same tenant type that has no parent of its own.
   */
  predicate Shallow(groups: map<string, GroupDef>) {
    forall k :: k in groups && HasParent(groups[k]) ==>
      groups[k].parentKey.value in groups && !HasParent(groups[groups[k].parentKey.value])
  }
}
