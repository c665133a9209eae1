/**
 * The resource screen (components/dashboard/ResourceAllocation.tsx): a tab picks one of three
 * fixed resource lists, a department filter narrows it, and each card's adjustment is passed
 * upwards together with the resource's id.
 */
module ResourceAllocation {
  import opened Seqs

  /** One row of the mock resource lists. */
  datatype Resource = Resource(
    id: string,
    title: string,
    kind: string,
    currentAllocation: int,
    totalCapacity: int,
    availabilityPercentage: real,
    trend: string,
    criticalThreshold: bool,
    departmentName: string)

  const StaffResources: seq<Resource> := [
    Resource("staff-001", "Doctors", "staff", 12, 15, 80.0, "stable", false, "Emergency Department"),
    Resource("staff-002", "Nurses", "staff", 24, 30, 80.0, "down", false, "ICU"),
    Resource("staff-003", "Specialists", "staff", 8, 10, 80.0, "up", false, "Cardiology"),
    Resource("staff-004", "Technicians", "staff", 5, 8, 62.5, "down", true, "Radiology"),
    Resource("staff-005", "Support Staff", "staff", 15, 20, 75.0, "stable", false, "General Ward")]

  const EquipmentResources: seq<Resource> := [
    Resource("equip-001", "Ventilators", "equipment", 8, 12, 33.0, "down", true, "ICU"),
    Resource("equip-002", "Monitors", "equipment", 15, 20, 75.0, "stable", false, "Emergency Department"),
    Resource("equip-003", "Defibrillators", "equipment", 5, 8, 62.5, "stable", false, "Cardiology"),
    Resource("equip-004", "MRI Machines", "equipment", 1, 2, 50.0, "stable", false, "Radiology")]

  /** The protective equipment belongs to the literal department "All Departments". */
  const Ppe := Resource("supply-002", "PPE", "supplies", 500, 1000, 50.0, "down", true, "All Departments")

  const SuppliesResources: seq<Resource> := [
    Resource("supply-001", "Medications", "supplies", 800, 1000, 80.0, "stable", false, "Pharmacy"),
    Ppe,
    Resource("supply-003", "Surgical Supplies", "supplies", 300, 400, 75.0, "stable", false, "Surgery"),
    Resource("supply-004", "IV Fluids", "supplies", 200, 300, 66.0, "down", false, "Emergency Department")]

  /** The wildcard of the department filter. */
  const AllDepartments: string := "All Departments"

  /** The department filter's options. */
  const Departments: seq<string> :=
    ["All Departments", "Emergency Department", "ICU", "Cardiology", "Radiology", "General Ward",
     "Surgery", "Pharmacy"]

  /** The resource type a tab stands for: its own name, or "staff" for any other tab. */
  function TabKind(tab: string): string {
    if tab == "equipment" || tab == "supplies" then tab else "staff"
  }

  /** The `switch (activeTab)` of `getFilteredResources`. */
  function SelectedList(tab: string): (r: seq<Resource>)
    ensures forall x :: x in r ==> x.kind == TabKind(tab)
    ensures |r| == if TabKind(tab) == "staff" then 5 else 4
  {
    match tab
    case "staff" => StaffResources
    case "equipment" => EquipmentResources
    case "supplies" => SuppliesResources
    case _ => StaffResources
  }

  /** Any tab other than the three shows the staff list. */
  lemma UnknownTabShowsStaff(tab: string)
    requires tab != "staff" && tab != "equipment" && tab != "supplies"
    ensures SelectedList(tab) == SelectedList("staff")
  {
  }

  function InDepartment(department: string): Resource -> bool {
    (x: Resource) => x.departmentName == department
  }

  /** `getFilteredResources()`. */
  function FilteredResources(tab: string, departmentFilter: string): (r: seq<Resource>)
    ensures IsSubsequence(r, SelectedList(tab))
    ensures departmentFilter == AllDepartments ==> r == SelectedList(tab)
    ensures departmentFilter != AllDepartments ==>
      forall x :: x in r <==> x in SelectedList(tab) && x.departmentName == departmentFilter
    ensures forall x :: x in r ==> x.kind == TabKind(tab)
  {
    var list := SelectedList(tab);
    if departmentFilter != AllDepartments then
      FilterSubsequence(list, InDepartment(departmentFilter));
      FilterMembers(list, InDepartment(departmentFilter));
      Filter(list, InDepartment(departmentFilter))
    else
      SubsequenceOfSelf(list);
      list
  }

  /** The protective equipment disappears as soon as any one department is selected. */
  lemma PpeOnlyUnderAllDepartments(departmentFilter: string)
    requires departmentFilter != AllDepartments
    ensures Ppe !in FilteredResources("supplies", departmentFilter)
  {
  }

  /** No resource list has a row for the "General Ward" filter except staff. */
  lemma GeneralWardOnlyStaff(tab: string)
    requires tab == "equipment" || tab == "supplies"
    ensures FilteredResources(tab, "General Ward") == []
  {
    FilterNone(SelectedList(tab), InDepartment("General Ward"));
  }

  /** A row of another tab's list is never shown, whatever the department filter. */
  lemma OtherTabsNeverShown(tab: string, other: string, departmentFilter: string, x: Resource)
    requires TabKind(other) != TabKind(tab) && x in SelectedList(other)
    ensures x !in FilteredResources(tab, departmentFilter)
  {
  }

  /** What `handleResourceAdjust` passes to `onResourceUpdate`. */
  datatype Update = Update(resourceId: string, newAllocation: int)

  /** The `onAdjust` of the card showing `r`. */
  function Forward(r: Resource, newAllocation: int): (u: Update)
    ensures u.resourceId == r.id && u.newAllocation == newAllocation
  {
    Update(r.id, newAllocation)
  }

  /** No two rows of a list share an id. */
  ghost predicate DistinctIds(s: seq<Resource>) {
    forall i, j :: 0 <= i < |s| && 0 <= j < |s| && s[i].id == s[j].id ==> i == j
  }

  lemma StaffIdsDistinct()
    ensures DistinctIds(StaffResources)
  {
  }

  lemma EquipmentIdsDistinct()
    ensures DistinctIds(EquipmentResources)
  {
  }

  lemma SuppliesIdsDistinct()
    ensures DistinctIds(SuppliesResources)
  {
  }

  /** Within a tab the ids are distinct, so a forwarded update names exactly one card. */
  lemma ForwardIdentifiesCard(tab: string, i: nat, j: nat, m: int, n: int)
    requires i < |SelectedList(tab)| && j < |SelectedList(tab)|
    requires Forward(SelectedList(tab)[i], m).resourceId == Forward(SelectedList(tab)[j], n).resourceId
    ensures i == j
  {
    StaffIdsDistinct();
    EquipmentIdsDistinct();
    SuppliesIdsDistinct();
  }
}
