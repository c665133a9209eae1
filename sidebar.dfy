/**
 * The navigation sidebar (components/layout/Sidebar.tsx): the items a role sees, which of them
 * is highlighted, and where pressing one goes.
 */
module Sidebar {

  const Administrator: string := "Administrator"
  const MedicalStaff: string := "Medical Staff"
  const Reception: string := "Reception"

  datatype Item = Dashboard | Beds | Patients | Resources | Alerts | Reports | Settings {

    /** The page key the item navigates to and is highlighted for. */
    function Key(): string {
      match this
      case Dashboard => "dashboard"
      case Beds => "beds"
      case Patients => "patients"
      case Resources => "resources"
      case Alerts => "alerts"
      case Reports => "reports"
      case Settings => "settings"
    }
  }

  /** The items in the order they are drawn. */
  const Items: seq<Item> := [Dashboard, Beds, Patients, Resources, Alerts, Reports, Settings]

  /** The role conditions around each item; the first two have none. */
  predicate Visible(role: string, item: Item) {
    match item
    case Dashboard => true
    case Beds => true
    case Patients => role == Administrator || role == MedicalStaff || role == Reception
    case Resources => role == Administrator || role == MedicalStaff
    case Alerts => role == Administrator || role == MedicalStaff
    case Reports => role == Administrator
    case Settings => role == Administrator
  }

  /** The item as drawn for `role`: itself when its condition holds, nothing otherwise. */
  function Shown(role: string, item: Item): seq<Item> {
    if Visible(role, item) then [item] else []
  }

  /** The items a role sees, in drawing order. */
  function VisibleItems(role: string): (r: seq<Item>)
    ensures forall i :: i in r <==> Visible(role, i)
  {
    [Dashboard, Beds] + Shown(role, Patients) + Shown(role, Resources) + Shown(role, Alerts)
    + Shown(role, Reports) + Shown(role, Settings)
  }

  /** All three roles see the dashboard, the beds and the patient queue. */
  lemma CommonItems(role: string)
    requires role == Administrator || role == MedicalStaff || role == Reception
    ensures Visible(role, Dashboard) && Visible(role, Beds) && Visible(role, Patients)
  {
  }

  /** Resources and alerts are for administrators and medical staff only. */
  lemma ClinicalItems(role: string)
    ensures Visible(role, Resources) <==> role == Administrator || role == MedicalStaff
    ensures Visible(role, Alerts) <==> role == Administrator || role == MedicalStaff
  {
  }

  /** Reports and settings are for administrators only. */
  lemma AdminItems(role: string)
    ensures Visible(role, Reports) <==> role == Administrator
    ensures Visible(role, Settings) <==> role == Administrator
  {
  }

  /** What reception sees, medical staff see, and what medical staff see, administrators see. */
  lemma VisibilityNests(item: Item)
    ensures Visible(Reception, item) ==> Visible(MedicalStaff, item)
    ensures Visible(MedicalStaff, item) ==> Visible(Administrator, item)
  {
  }

  /** The administrator's menu holds every item. */
  lemma AdministratorMenu()
    ensures VisibleItems(Administrator) == Items
  {
    assert Shown(Administrator, Patients) == [Patients];
    assert Shown(Administrator, Resources) == [Resources];
    assert Shown(Administrator, Alerts) == [Alerts];
    assert Shown(Administrator, Reports) == [Reports];
    assert Shown(Administrator, Settings) == [Settings];
  }

  /** The medical staff menu stops before reports. */
  lemma MedicalStaffMenu()
    ensures VisibleItems(MedicalStaff) == [Dashboard, Beds, Patients, Resources, Alerts]
  {
    assert Shown(MedicalStaff, Patients) == [Patients];
    assert Shown(MedicalStaff, Resources) == [Resources];
    assert Shown(MedicalStaff, Alerts) == [Alerts];
    assert Shown(MedicalStaff, Reports) == [];
    assert Shown(MedicalStaff, Settings) == [];
  }

  /** The reception menu stops after the patient queue. */
  lemma ReceptionMenu()
    ensures VisibleItems(Reception) == [Dashboard, Beds, Patients]
  {
    assert Shown(Reception, Patients) == [Patients];
    assert Shown(Reception, Resources) == [];
    assert Shown(Reception, Alerts) == [];
    assert Shown(Reception, Reports) == [];
    assert Shown(Reception, Settings) == [];
  }

  /** An item is highlighted exactly when the active page is its key. */
  predicate IsActive(activePage: string, item: Item) {
    activePage == item.Key()
  }

  /** The keys differ, so at most one item is highlighted. */
  lemma AtMostOneActive(activePage: string, a: Item, b: Item)
    requires IsActive(activePage, a) && IsActive(activePage, b)
    ensures a == b
  {
  }

  /** What `handleNavigation(page)` does: tell `onNavigate`, then push a route. */
  datatype Navigation = Navigation(notified: string, pushed: string)

  function HandleNavigation(page: string): (n: Navigation)
    ensures n.notified == page
    ensures page == "dashboard" ==> n.pushed == "/"
    ensures page != "dashboard" ==> n.pushed == "/" + page
  {
    Navigation(page, if page != "dashboard" then "/" + page else "/")
  }

  /** Every item pushes a different route, so the route identifies the item. */
  lemma RoutesIdentifyItems(a: Item, b: Item)
    requires HandleNavigation(a.Key()).pushed == HandleNavigation(b.Key()).pushed
    ensures a == b
  {
    assert HandleNavigation(a.Key()).pushed[1..] == a.Key() || a == Dashboard;
    assert HandleNavigation(b.Key()).pushed[1..] == b.Key() || b == Dashboard;
  }

  /** The home route is pushed for the dashboard and, quietly, for an empty page name too. */
  lemma HomeRoutePages(page: string)
    ensures HandleNavigation(page).pushed == "/" <==> page == "dashboard" || page == ""
  {
    if page != "dashboard" && HandleNavigation(page).pushed == "/" {
      assert ("/" + page)[1..] == page;
    }
  }

  /** The defaults when the sidebar is drawn without props. */
  const DefaultRole: string := Administrator
  const DefaultActivePage: string := "dashboard"
}
