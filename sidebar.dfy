/**
 * The navigation of client/src/components/layout/sidebar.tsx: the module
 * test `hasModuleAccess`, the sections and their items, and what a role
 * gets to see.
 */
module Sidebar {
  import opened Wrappers
  import opened Seqs
  import opened Schema
  import Routes

  datatype NavItem = NavItem(title: string, href: string, moduleName: string)
  datatype NavSection = NavSection(name: string, items: seq<NavItem>)

  /** The Dashboard link, rendered above the sections for everyone. */
  const DashboardItem := NavItem("Dashboard", "/", "all")

  /** The sections, in their order, each with its two items. */
  const NavSections: seq<NavSection> := [
    NavSection("Planning", [NavItem("Annual Investment Plan", "/planning/aip", Planning),
                            NavItem("Development Plans", "/planning/development", Planning)]),
    NavSection("Budget", [NavItem("Budget Preparation", "/budget/preparation", Budget),
                          NavItem("Budget Obligation", "/budget/obligation", Budget)]),
    NavSection("Accounting", [NavItem("Journal Entries", "/accounting/journal-entries", Accounting),
                              NavItem("Voucher Management", "/accounting/vouchers", Accounting)]),
    NavSection("Treasury", [NavItem("Collections", "/treasury/collections", Treasury),
                            NavItem("Disbursements", "/treasury/disbursements", Treasury)]),
    NavSection("HRIS", [NavItem("Employee Records", "/hris/employees", Hris),
                        NavItem("Payroll", "/hris/payroll", Hris)])
  ]

  /** `hasModuleAccess`: no role sees nothing; then "all" is open, an admin sees everything, others their own module. */
  predicate HasModuleAccess(role: Option<Role>, itemModule: string) {
    if role.None? then false
    else if itemModule == "all" then true
    else if role.value.moduleName == Admin then true
    else role.value.moduleName == itemModule
  }

  /** A section is rendered when `some` of its items is accessible. */
  predicate SectionShown(role: Option<Role>, s: NavSection) {
    exists i :: i in s.items && HasModuleAccess(role, i.moduleName)
  }

  /** The items rendered inside a section: the accessible ones, in order. */
  function VisibleItems(role: Option<Role>, s: NavSection): (r: seq<NavItem>)
    ensures forall i :: i in r <==> i in s.items && HasModuleAccess(role, i.moduleName)
    ensures IsSubseq(r, s.items)
  {
    FilterIsSubseq(s.items, (i: NavItem) => HasModuleAccess(role, i.moduleName));
    Filter(s.items, (i: NavItem) => HasModuleAccess(role, i.moduleName))
  }

  /** The sections rendered, in order. */
  function VisibleSections(role: Option<Role>): (r: seq<NavSection>)
    ensures forall s :: s in r <==> s in NavSections && SectionShown(role, s)
    ensures IsSubseq(r, NavSections)
  {
    FilterIsSubseq(NavSections, (s: NavSection) => SectionShown(role, s));
    Filter(NavSections, (s: NavSection) => SectionShown(role, s))
  }

  /** The links rendered, top to bottom: Dashboard, then each visible section's visible items. */
  function Links(role: Option<Role>): seq<NavItem> {
    [DashboardItem] + ItemsOf(role, VisibleSections(role))
  }

  function ItemsOf(role: Option<Role>, sections: seq<NavSection>): seq<NavItem> {
    if sections == [] then [] else VisibleItems(role, sections[0]) + ItemsOf(role, sections[1..])
  }

  // ---------------------------------------------------------------- what the rules mean

  /** A section is rendered exactly when it has at least one rendered item. */
  lemma SectionShownIffItemsVisible(role: Option<Role>, s: NavSection)
    ensures SectionShown(role, s) <==> VisibleItems(role, s) != []
  {
    if SectionShown(role, s) {
      var i :| i in s.items && HasModuleAccess(role, i.moduleName);
      assert i in VisibleItems(role, s);
    }
  }

  /** The Dashboard link comes first whatever the role, even with none. */
  lemma DashboardAlwaysFirst(role: Option<Role>)
    ensures Links(role)[0] == DashboardItem
  {
  }

  /** Without a role only the Dashboard link is rendered. */
  lemma NoRoleSeesOnlyDashboard()
    ensures VisibleSections(None) == [] && Links(None) == [DashboardItem]
  {
    FilterNone(NavSections, s => SectionShown(None, s));
  }

  /** An admin sees every section with all its items. */
  lemma AdminSeesEverything(role: Role)
    requires role.moduleName == Admin
    ensures VisibleSections(Some(role)) == NavSections
    ensures forall s :: s in NavSections ==> VisibleItems(Some(role), s) == s.items
  {
    forall s | s in NavSections ensures VisibleItems(Some(role), s) == s.items {
      FilterAll(s.items, (i: NavItem) => HasModuleAccess(Some(role), i.moduleName));
    }
    forall s | s in NavSections ensures SectionShown(Some(role), s) {
      assert s.items[0] in s.items;
    }
    FilterAll(NavSections, s => SectionShown(Some(role), s));
  }

  /** Every item of the section belongs to the module of its first item. */
  predicate SingleModule(s: NavSection) {
    |s.items| > 0 && forall i :: i in s.items ==> i.moduleName == s.items[0].moduleName
  }

  /** Each section of the menu belongs to one module. */
  lemma SectionsAreSingleModule(k: nat)
    requires k < |NavSections|
    ensures SingleModule(NavSections[k])
  {
  }

  /** The items of a section all belong to one module, so a shown section shows all of its items. */
  lemma ShownSectionShowsAllItems(role: Option<Role>, s: NavSection)
    requires s in NavSections && SectionShown(role, s)
    ensures VisibleItems(role, s) == s.items
  {
    var k :| 0 <= k < |NavSections| && NavSections[k] == s;
    SectionsAreSingleModule(k);
    var i :| i in s.items && HasModuleAccess(role, i.moduleName);
    FilterAll(s.items, (i: NavItem) => HasModuleAccess(role, i.moduleName));
  }

  /** A role of one of the five modules sees exactly that module's section. */
  lemma ModuleRoleSeesOwnSection(role: Role, k: nat)
    requires k < |NavSections| && role.moduleName == NavSections[k].items[0].moduleName
    ensures VisibleSections(Some(role)) == [NavSections[k]]
  {
    var p := (s: NavSection) => SectionShown(Some(role), s);
    assert forall j :: 0 <= j < |NavSections| ==> (p(NavSections[j]) <==> j == k) by {
      forall j | 0 <= j < |NavSections| ensures p(NavSections[j]) <==> j == k {
        assert NavSections[j].items[0] in NavSections[j].items;
      }
    }
    FilterSingle(NavSections, p, k);
  }

  /**
   * The sidebar and the server agree: for a signed-in user whose role is
   * stored, an item of a module other than "all" is shown exactly when the
   * server's module check lets the user through.
   */
  lemma AgreesWithServer(session: Routes.Session, roles: map<nat, Role>, m: string)
    requires session.authenticated && session.user.Some? && session.user.value.roleId != 0
    requires session.user.value.roleId in roles && m != "all"
    ensures HasModuleAccess(Some(roles[session.user.value.roleId]), m) <==>
      Routes.CheckModuleAccess(session, roles, m) == Routes.Next
  {
  }
}
