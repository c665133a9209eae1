/**
 * The filter bar of the bed board (components/dashboard/BedFilterPanel.tsx): a selected ward,
 * a selected status and a search text; every handler stores its own field and emits the
 * whole record to the board.
 */
module BedFilterPanel {
  import opened Seqs
  import opened BedManagement

  /** The ward dropdown's options. */
  const Wards: seq<string> :=
    ["All Wards", "Emergency", "ICU", "General", "Pediatric", "Maternity", "Surgery", "Psychiatric"]

  /** The status dropdown's options. */
  const Statuses: seq<string> :=
    ["All Status", "Available", "Occupied", "Maintenance", "Reserved", "Cleaning"]

  /** "General" is offered but is not a department the mock beds are drawn from. */
  lemma GeneralIsNoMockDepartment()
    ensures "General" in Wards && "General" !in MockDepartments
  {
  }

  /** Selecting ward "General" shows no bed when all departments come from the mock pool. */
  lemma GeneralShowsNothing(beds: seq<Bed>, f: BedFilter)
    requires forall b :: b in beds ==> b.department in MockDepartments
    requires f.ward == "General"
    ensures FilteredBeds(beds, f) == []
  {
    FilterNone(beds, BedTest(f));
  }

  /** "Reserved" and "Cleaning" are not bed statuses, so selecting either shows no bed at all. */
  lemma UnknownStatusShowsNothing(beds: seq<Bed>, f: BedFilter)
    requires f.status == "Reserved" || f.status == "Cleaning"
    ensures FilteredBeds(beds, f) == []
  {
    FilterNone(beds, BedTest(f));
  }

  /** The component state of the filter bar. */
  class Panel {
    var selectedWard: string
    var selectedStatus: string
    var search: string

    /** The record the panel would emit now. */
    function Current(): BedFilter
      reads this
    {
      BedFilter(selectedWard, selectedStatus, search)
    }

    /** Nothing selected, nothing searched. */
    constructor ()
      ensures Current() == NoBedFilter
    {
      selectedWard := AllWards;
      selectedStatus := AllStatus;
      search := "";
    }

    /** `handleWardSelect`: store the ward, emit it with the current status and search. */
    method HandleWardSelect(ward: string) returns (emitted: BedFilter)
      modifies this`selectedWard
      ensures Current() == old(Current()).(ward := ward)
      ensures emitted == Current()
    {
      selectedWard := ward;
      emitted := BedFilter(ward, selectedStatus, search);
    }

    /** `handleStatusSelect`: store the status, emit it with the current ward and search. */
    method HandleStatusSelect(status: string) returns (emitted: BedFilter)
      modifies this`selectedStatus
      ensures Current() == old(Current()).(status := status)
      ensures emitted == Current()
    {
      selectedStatus := status;
      emitted := BedFilter(selectedWard, status, search);
    }

    /** `handleSearchChange`: store the text, emit it with the current ward and status. */
    method HandleSearchChange(text: string) returns (emitted: BedFilter)
      modifies this`search
      ensures Current() == old(Current()).(search := text)
      ensures emitted == Current()
    {
      search := text;
      emitted := BedFilter(selectedWard, selectedStatus, text);
    }

    /** `clearSearch`: the search is emptied and the selections are kept. */
    method ClearSearch() returns (emitted: BedFilter)
      modifies this`search
      ensures Current() == old(Current()).(search := "")
      ensures emitted == Current()
    {
      search := "";
      emitted := BedFilter(selectedWard, selectedStatus, "");
    }
  }
}
