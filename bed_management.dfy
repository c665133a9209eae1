/**
 * The bed board (components/dashboard/BedManagement.tsx): a list of beds, a filtered view of
 * it, status changes that rewrite one bed, the summary counts, and the generator of mock
 * beds used when no list is given or a refresh brings none.
 */
module BedManagement {
  import opened Wrappers
  import opened Text
  import opened Numbers
  import opened Seqs

  datatype BedStatus = Available | Occupied | Maintenance {

    /** The status as the record and the status filter spell it. */
    function Name(): string {
      match this
      case Available => "Available"
      case Occupied => "Occupied"
      case Maintenance => "Maintenance"
    }
  }

  /** `patientName` and `admissionTime` are optional: `None` is a deleted or absent key. */
  datatype Bed = Bed(
    id: string,
    status: BedStatus,
    department: string,
    patientName: Option<string>,
    admissionTime: Option<string>)

  /** `bed.patientName` is truthy: present and not the empty string. */
  predicate NamePresent(patientName: Option<string>) {
    patientName.Some? && Truthy(patientName.value)
  }

  /** The `map` callback of `handleStatusChange`, for the bed with id `id`, at time `now`. */
  function UpdateBed(b: Bed, id: string, st: BedStatus, now: string): (r: Bed)
    ensures r.id == b.id && r.department == b.department
    ensures b.id != id ==> r == b
    ensures b.id == id ==> r.status == st
    ensures b.id == id && st == Available ==> r.patientName == None && r.admissionTime == None
    ensures b.id == id && st == Occupied && !NamePresent(b.patientName) ==>
      r.patientName == Some("New Patient") && r.admissionTime == Some(now)
    ensures b.id == id && (st == Maintenance || (st == Occupied && NamePresent(b.patientName))) ==>
      r.patientName == b.patientName && r.admissionTime == b.admissionTime
  {
    if b.id != id then b
    else
      var updated := b.(status := st);
      var cleared := if st == Available then updated.(patientName := None, admissionTime := None) else updated;
      if st == Occupied && !NamePresent(cleared.patientName) then
        cleared.(patientName := Some("New Patient"), admissionTime := Some(now))
      else cleared
  }

  /** The list `handleStatusChange` stores: every bed passed through `UpdateBed`. */
  function StatusChanged(beds: seq<Bed>, id: string, st: BedStatus, now: string): (r: seq<Bed>)
    ensures |r| == |beds|
    ensures forall i :: 0 <= i < |beds| ==> r[i].id == beds[i].id
    ensures forall i :: 0 <= i < |beds| && beds[i].id != id ==> r[i] == beds[i]
    ensures forall i :: 0 <= i < |beds| && beds[i].id == id ==> r[i] == UpdateBed(beds[i], id, st, now)
    ensures (forall b :: b in beds ==> b.id != id) ==> r == beds
  {
    seq(|beds|, i requires 0 <= i < |beds| => UpdateBed(beds[i], id, st, now))
  }

  /** Setting the same status twice is setting it once (at any two times). */
  lemma UpdateBedIdempotent(b: Bed, id: string, st: BedStatus, now: string, later: string)
    ensures UpdateBed(UpdateBed(b, id, st, now), id, st, later) == UpdateBed(b, id, st, now)
  {
  }

  lemma StatusChangedIdempotent(beds: seq<Bed>, id: string, st: BedStatus, now: string, later: string)
    ensures StatusChanged(StatusChanged(beds, id, st, now), id, st, later) == StatusChanged(beds, id, st, now)
  {
    var once := StatusChanged(beds, id, st, now);
    forall i | 0 <= i < |beds|
      ensures StatusChanged(once, id, st, later)[i] == once[i]
    {
      UpdateBedIdempotent(beds[i], id, st, now, later);
    }
  }

  /** After a change to Occupied the bed always has a truthy patient name. */
  lemma OccupiedHasPatient(b: Bed, now: string)
    ensures NamePresent(UpdateBed(b, b.id, Occupied, now).patientName)
  {
  }

  /** The record `BedFilterPanel` emits and `handleFilterChange` receives. */
  datatype BedFilter = BedFilter(ward: string, status: string, search: string)

  const AllWards: string := "All Wards"
  const AllStatus: string := "All Status"

  /** The record in which nothing is filtered out. */
  const NoBedFilter: BedFilter := BedFilter(AllWards, AllStatus, "")

  predicate WardMatches(f: BedFilter, b: Bed) {
    f.ward == AllWards || b.department == f.ward
  }

  predicate StatusMatches(f: BedFilter, b: Bed) {
    f.status == AllStatus || b.status.Name() == f.status
  }

  /** A case-blind substring of the id, of the patient name when truthy, or of the department. */
  predicate SearchHit(query: string, b: Bed) {
    || Contains(Lower(b.id), Lower(query))
    || (NamePresent(b.patientName) && Contains(Lower(b.patientName.value), Lower(query)))
    || Contains(Lower(b.department), Lower(query))
  }

  /** A bed passes the filter record: every active part of it holds. */
  predicate BedMatches(f: BedFilter, b: Bed) {
    WardMatches(f, b) && StatusMatches(f, b) && (f.search == "" || SearchHit(f.search, b))
  }

  function BedTest(f: BedFilter): Bed -> bool {
    (b: Bed) => BedMatches(f, b)
  }

  /** The list `handleFilterChange` stores, as a single filter. */
  function FilteredBeds(beds: seq<Bed>, f: BedFilter): (r: seq<Bed>)
    ensures IsSubsequence(r, beds)
    ensures forall b :: b in r <==> b in beds && BedMatches(f, b)
    ensures forall b :: multiset(r)[b] == if BedMatches(f, b) then multiset(beds)[b] else 0
    ensures forall b :: b in r ==>
      && (f.ward != AllWards ==> b.department == f.ward)
      && (f.status != AllStatus ==> b.status.Name() == f.status)
      && (f.search != "" ==> SearchHit(f.search, b))
    ensures f == NoBedFilter ==> r == beds
  {
    FilterSubsequence(beds, BedTest(f));
    FilterMembers(beds, BedTest(f));
    FilterMultiset(beds, BedTest(f));
    assert f == NoBedFilter ==> Filter(beds, BedTest(f)) == beds by {
      if f == NoBedFilter {
        FilterKeepsAll(beds, BedTest(f));
      }
    }
    Filter(beds, BedTest(f))
  }

  /** The three tests `handleFilterChange` applies one after the other. */
  function InWard(ward: string): Bed -> bool {
    (b: Bed) => b.department == ward
  }

  function WithStatusName(status: string): Bed -> bool {
    (b: Bed) => b.status.Name() == status
  }

  function Searched(query: string): Bed -> bool {
    (b: Bed) => SearchHit(query, b)
  }

  /** The tests applied so far, after the ward step and after the status step. */
  function AfterWard(f: BedFilter): Bed -> bool {
    (b: Bed) => WardMatches(f, b)
  }

  function AfterStatus(f: BedFilter): Bed -> bool {
    (b: Bed) => WardMatches(f, b) && StatusMatches(f, b)
  }

  /**
   * `handleFilterChange`: starting from all beds, narrow by ward unless it is "All Wards",
   * then by status unless it is "All Status", then by search when the search is truthy.
   * The result is the single filter `FilteredBeds`.
   */
  method NarrowBeds(beds: seq<Bed>, f: BedFilter) returns (filtered: seq<Bed>)
    ensures filtered == FilteredBeds(beds, f)
  {
    filtered := beds;
    if f.ward != AllWards {
      filtered := Filter(filtered, InWard(f.ward));
      FilterAgree(beds, InWard(f.ward), AfterWard(f));
    } else {
      FilterKeepsAll(beds, AfterWard(f));
    }
    assert filtered == Filter(beds, AfterWard(f));
    if f.status != AllStatus {
      filtered := Filter(filtered, WithStatusName(f.status));
      FilterFilter(beds, AfterWard(f), WithStatusName(f.status), AfterStatus(f));
    } else {
      FilterAgree(beds, AfterWard(f), AfterStatus(f));
    }
    assert filtered == Filter(beds, AfterStatus(f));
    if f.search != "" {
      filtered := Filter(filtered, Searched(f.search));
      FilterFilter(beds, AfterStatus(f), Searched(f.search), BedTest(f));
    } else {
      FilterAgree(beds, AfterStatus(f), BedTest(f));
    }
  }

  function HasStatus(st: BedStatus): Bed -> bool {
    (b: Bed) => b.status == st
  }

  /** The summary tiles of `getStatusCounts`. */
  datatype Counts = Counts(total: nat, available: nat, occupied: nat, maintenance: nat)

  function StatusCounts(beds: seq<Bed>): (c: Counts)
    ensures c.total == |beds|
    ensures c.available + c.occupied + c.maintenance == c.total
  {
    CountsPartition(beds);
    Counts(|beds|, Count(beds, HasStatus(Available)), Count(beds, HasStatus(Occupied)),
           Count(beds, HasStatus(Maintenance)))
  }

  /** Every bed has exactly one of the three statuses, so the three counts cover the list. */
  lemma {:induction false} CountsPartition(beds: seq<Bed>)
    ensures Count(beds, HasStatus(Available)) + Count(beds, HasStatus(Occupied))
          + Count(beds, HasStatus(Maintenance)) == |beds|
  {
    if beds != [] {
      CountsPartition(beds[1..]);
      FilterStep(beds, HasStatus(Available));
      FilterStep(beds, HasStatus(Occupied));
      FilterStep(beds, HasStatus(Maintenance));
    }
  }

  /** The pools the mock generator draws from. */
  const MockDepartments: seq<string> :=
    ["Emergency", "ICU", "General Ward", "Pediatric", "Maternity", "Surgery", "Psychiatric"]
  const MockStatuses: seq<BedStatus> := [Available, Occupied, Maintenance]
  const MockNames: seq<string> := ["John Doe", "Jane Smith", "Robert Johnson", "Maria Garcia"]
  const MockTimes: seq<string> := ["08:30 AM", "11:45 AM", "02:15 PM", "07:20 PM"]

  /** The four `Math.random()` values one iteration may consume; the last two only when occupied. */
  datatype BedDraw = BedDraw(status: UnitReal, department: UnitReal, name: UnitReal, time: UnitReal)

  /** `B-${1000 + i}`. */
  function MockId(i: nat): string {
    "B-" + Decimal(1000 + i)
  }

  /** Distinct positions give distinct ids. */
  lemma MockIdsDistinct(i: nat, j: nat)
    requires i != j
    ensures MockId(i) != MockId(j)
  {
    DecimalDistinct(1000 + i, 1000 + j);
    assert MockId(i)[2..] == Decimal(1000 + i);
    assert MockId(j)[2..] == Decimal(1000 + j);
  }

  /** The ids of the 24 mock beds, "B-1001" to "B-1024", are six characters each. */
  lemma MockIdShape(i: nat)
    requires 1 <= i <= 24
    ensures |MockId(i)| == 6 && MockId(i)[..2] == "B-"
    ensures forall k :: 2 <= k < 6 ==> '0' <= MockId(i)[k] <= '9'
  {
    assert Pow10(3) == 1000 && Pow10(4) == 10000;
    DecimalLength(1000 + i, 4);
  }

  /**
   * Bed number `i` of the mock list: a drawn status and department, and a drawn patient
   * name and admission time exactly when it is occupied.
   */
  function MockBed(i: nat, d: BedDraw): (b: Bed)
    ensures b.id == MockId(i)
    ensures b.status in MockStatuses && b.department in MockDepartments
    ensures b.patientName.Some? <==> b.status == Occupied
    ensures b.admissionTime.Some? <==> b.status == Occupied
    ensures b.patientName.Some? ==> b.patientName.value in MockNames
    ensures b.admissionTime.Some? ==> b.admissionTime.value in MockTimes
  {
    var status := MockStatuses[ScaledFloor(d.status, 3)];
    Bed(MockId(i), status, MockDepartments[ScaledFloor(d.department, 7)],
        if status == Occupied then Some(MockNames[ScaledFloor(d.name, 4)]) else None,
        if status == Occupied then Some(MockTimes[ScaledFloor(d.time, 4)]) else None)
  }

  /** `generateMockBeds`: the loop over i = 1..24 pushing one bed each. */
  method GenerateMockBeds(draws: seq<BedDraw>) returns (mockBeds: seq<Bed>)
    requires |draws| == 24
    ensures |mockBeds| == 24
    ensures forall k :: 0 <= k < 24 ==> mockBeds[k] == MockBed(k + 1, draws[k])
    ensures forall j, k :: 0 <= j < k < 24 ==> mockBeds[j].id != mockBeds[k].id
  {
    mockBeds := [];
    for i := 1 to 25
      invariant |mockBeds| == i - 1
      invariant forall k :: 0 <= k < i - 1 ==> mockBeds[k] == MockBed(k + 1, draws[k])
    {
      var d := draws[i - 1];
      var status := MockStatuses[ScaledFloor(d.status, 3)];
      var bed := Bed(MockId(i), status, MockDepartments[ScaledFloor(d.department, 7)], None, None);
      if status == Occupied {
        bed := bed.(patientName := Some(MockNames[ScaledFloor(d.name, 4)]));
        bed := bed.(admissionTime := Some(MockTimes[ScaledFloor(d.time, 4)]));
      }
      mockBeds := mockBeds + [bed];
    }
    forall j, k | 0 <= j < k < 24
      ensures mockBeds[j].id != mockBeds[k].id
    {
      MockIdsDistinct(j + 1, k + 1);
    }
  }

  /** What a refresh brings back from the `beds` table. */
  datatype Fetch = FetchFailed | Fetched(rows: seq<Bed>)

  /** The component state of the bed board. */
  class Screen {
    var beds: seq<Bed>
    var filteredBeds: seq<Bed>

    /**
     * `useState(initialBeds || generateMockBeds())`; the reset effect then shows every bed.
     * An empty array is truthy, so a given empty list is kept.
     */
    constructor (initialBeds: Option<seq<Bed>>, draws: seq<BedDraw>)
      requires |draws| == 24
      ensures initialBeds.Some? ==> beds == initialBeds.value
      ensures initialBeds.None? ==> |beds| == 24
      ensures initialBeds.None? ==> forall k :: 0 <= k < 24 ==> beds[k] == MockBed(k + 1, draws[k])
      ensures filteredBeds == beds
    {
      var start: seq<Bed>;
      if initialBeds.Some? {
        start := initialBeds.value;
      } else {
        start := GenerateMockBeds(draws);
      }
      beds := start;
      filteredBeds := start;
    }

    /**
     * `handleStatusChange` followed by the reset effect: the beds are rewritten, every active
     * filter is dropped, and `(id, newStatus)` goes to `onStatusChange`.
     */
    method HandleStatusChange(id: string, st: BedStatus, now: string)
      returns (forwardedId: string, forwardedStatus: BedStatus)
      modifies this
      ensures beds == StatusChanged(old(beds), id, st, now)
      ensures filteredBeds == beds
      ensures forwardedId == id && forwardedStatus == st
    {
      beds := StatusChanged(beds, id, st, now);
      filteredBeds := beds;
      forwardedId, forwardedStatus := id, st;
    }

    /** `handleFilterChange`: only the view changes. */
    method HandleFilterChange(f: BedFilter)
      modifies this`filteredBeds
      ensures filteredBeds == FilteredBeds(beds, f)
    {
      filteredBeds := NarrowBeds(beds, f);
    }

    /**
     * `onRefresh`: fetched rows replace the beds when there are some; a failure or an empty
     * answer falls back to fresh mock beds. The reset effect then shows every bed.
     */
    method OnRefresh(fetch: Fetch, draws: seq<BedDraw>)
      requires |draws| == 24
      modifies this
      ensures fetch.Fetched? && |fetch.rows| > 0 ==> beds == fetch.rows
      ensures !(fetch.Fetched? && |fetch.rows| > 0) ==> |beds| == 24
      ensures !(fetch.Fetched? && |fetch.rows| > 0) ==>
        forall k :: 0 <= k < 24 ==> beds[k] == MockBed(k + 1, draws[k])
      ensures filteredBeds == beds
    {
      if fetch.Fetched? && |fetch.rows| > 0 {
        beds := fetch.rows;
      } else {
        beds := GenerateMockBeds(draws);
      }
      filteredBeds := beds;
    }

    /** The "Clear Filters" button of the empty view: every bed is shown again. */
    method ClearFilters()
      modifies this`filteredBeds
      ensures filteredBeds == beds
    {
      filteredBeds := beds;
    }

    function Summary(): (c: Counts)
      reads this
      ensures c.total == |beds|
    {
      StatusCounts(beds)
    }
  }
}
