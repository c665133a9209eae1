/**
 * The patient queue (components/dashboard/PatientQueue.tsx): a roster of patients, four
 * filter selections, a sort key and direction; the list shown is the roster filtered by
 * every active selection and then sorted; patients are only ever appended.
 */
module PatientQueue {
  import opened Wrappers
  import opened Text
  import opened Numbers
  import opened Seqs
  import opened AddPatientForm

  datatype Status = Waiting | InProgress | Completed | Cancelled {

    /** The status as the record and the status filter spell it. */
    function Name(): string {
      match this
      case Waiting => "waiting"
      case InProgress => "in-progress"
      case Completed => "completed"
      case Cancelled => "cancelled"
    }
  }

  datatype Patient = Patient(
    id: string,
    name: string,
    waitTime: int,
    priority: Priority,
    department: string,
    arrivalTime: string,
    status: Status)

  /** The wildcard value of each filter. */
  const AllDepartments: string := "All Departments"
  const AllPriorities: string := "All Priorities"
  const AllStatus: string := "All Status"

  /** The selections of the filter bar; each is a wildcard or an exact value. */
  datatype Criteria = Criteria(searchQuery: string, department: string, priority: string, status: string)

  /** The selections in which nothing is filtered out. */
  const NoFilters: Criteria := Criteria("", AllDepartments, AllPriorities, AllStatus)

  /** The search box: empty matches all, otherwise a case-blind substring of the name or id. */
  predicate SearchMatches(query: string, p: Patient) {
    query == "" || Contains(Lower(p.name), Lower(query)) || Contains(Lower(p.id), Lower(query))
  }

  /** The predicate of the `filter` call: every active criterion holds. */
  predicate Matches(c: Criteria, p: Patient) {
    && SearchMatches(c.searchQuery, p)
    && (c.department == AllDepartments || p.department == c.department)
    && (c.priority == AllPriorities || p.priority.Name() == c.priority)
    && (c.status == AllStatus || p.status.Name() == c.status)
  }

  /** `Matches(c, _)` as a test on patients. */
  function MatchesAll(c: Criteria): Patient -> bool {
    (p: Patient) => Matches(c, p)
  }

  /** The filter stage of `filteredAndSortedPatients`. */
  function FilterPatients(ps: seq<Patient>, c: Criteria): (r: seq<Patient>)
    ensures IsSubsequence(r, ps)
    ensures forall p :: p in r ==>
      && (c.searchQuery != "" ==>
            Contains(Lower(p.name), Lower(c.searchQuery)) || Contains(Lower(p.id), Lower(c.searchQuery)))
      && (c.department != AllDepartments ==> p.department == c.department)
      && (c.priority != AllPriorities ==> p.priority.Name() == c.priority)
      && (c.status != AllStatus ==> p.status.Name() == c.status)
    ensures forall p :: p in ps && Matches(c, p) ==> p in r
    ensures forall p :: multiset(r)[p] == if Matches(c, p) then multiset(ps)[p] else 0
    ensures c == NoFilters ==> r == ps
  {
    FilterSubsequence(ps, MatchesAll(c));
    FilterMembers(ps, MatchesAll(c));
    FilterMultiset(ps, MatchesAll(c));
    assert c == NoFilters ==> Filter(ps, MatchesAll(c)) == ps by {
      if c == NoFilters {
        FilterKeepsAll(ps, MatchesAll(c));
      }
    }
    Filter(ps, MatchesAll(c))
  }

  /** A selected priority or status that no record can hold keeps nobody. */
  lemma UnknownSelectionMatchesNothing(ps: seq<Patient>, c: Criteria)
    requires
      || (c.priority != AllPriorities && c.priority !in ["low", "medium", "high", "critical"])
      || (c.status != AllStatus && c.status !in ["waiting", "in-progress", "completed", "cancelled"])
    ensures FilterPatients(ps, c) == []
  {
    forall p | p in ps
      ensures !Matches(c, p)
    {
      KnownNames(p);
    }
    FilterNone(ps, MatchesAll(c));
  }

  /** The priority and status a record holds are spelled one of four ways each. */
  lemma KnownNames(p: Patient)
    ensures p.priority.Name() in ["low", "medium", "high", "critical"]
    ensures p.status.Name() in ["waiting", "in-progress", "completed", "cancelled"]
  {
  }

  datatype SortBy = WaitTime | PriorityOrder
  datatype Direction = Asc | Desc

  /** `toggleSortDirection`'s choice. */
  function Flip(d: Direction): (e: Direction)
    ensures e != d
  {
    if d == Asc then Desc else Asc
  }

  lemma FlipTwice(d: Direction)
    ensures Flip(Flip(d)) == d
  {
  }

  /** `priorityOrder`: critical 3, high 2, medium 1, low 0. */
  function Rank(p: Priority): (r: nat)
    ensures r <= 3
    ensures p == Critical <==> r == 3
    ensures p == High <==> r == 2
    ensures p == Medium <==> r == 1
    ensures p == Low <==> r == 0
  {
    match p
    case Critical => 3
    case High => 2
    case Medium => 1
    case Low => 0
  }

  /** The number the comparator subtracts for a patient. */
  function Key(key: SortBy, p: Patient): int {
    if key == WaitTime then p.waitTime else Rank(p.priority)
  }

  /**
   * The comparator `(a, b) => ...` returns `SortKey(a) - SortKey(b)`: ascending compares
   * the keys, descending their negations.
   */
  function SortKey(key: SortBy, dir: Direction, p: Patient): int {
    if dir == Asc then Key(key, p) else -Key(key, p)
  }

  ghost predicate Sorted(s: seq<Patient>, key: SortBy, dir: Direction) {
    forall i, j :: 0 <= i < j < |s| ==> SortKey(key, dir, s[i]) <= SortKey(key, dir, s[j])
  }

  /** Places `x` in front of the first element that does not sort strictly before it. */
  function Insert(x: Patient, s: seq<Patient>, key: SortBy, dir: Direction): (r: seq<Patient>)
    requires Sorted(s, key, dir)
    ensures |r| == |s| + 1
    ensures multiset(r) == multiset(s) + multiset{x}
    ensures r[0] == x || (s != [] && r[0] == s[0])
    ensures Sorted(r, key, dir)
  {
    if s == [] || SortKey(key, dir, x) <= SortKey(key, dir, s[0]) then
      SortedCons(x, s, key, dir);
      [x] + s
    else
      SortedTail(s, key, dir);
      var rest := Insert(x, s[1..], key, dir);
      assert s == [s[0]] + s[1..];
      SortedCons(s[0], rest, key, dir);
      [s[0]] + rest
  }

  /** A patient that sorts no later than the head of a sorted list can go in front of it. */
  lemma SortedCons(h: Patient, t: seq<Patient>, key: SortBy, dir: Direction)
    requires Sorted(t, key, dir)
    requires t != [] ==> SortKey(key, dir, h) <= SortKey(key, dir, t[0])
    ensures Sorted([h] + t, key, dir)
  {
    var r := [h] + t;
    forall i, j | 0 <= i < j < |r|
      ensures SortKey(key, dir, r[i]) <= SortKey(key, dir, r[j])
    {
      if i == 0 {
        assert r[j] == t[j - 1];
        assert SortKey(key, dir, t[0]) <= SortKey(key, dir, t[j - 1]) || j == 1;
      } else {
        assert r[i] == t[i - 1] && r[j] == t[j - 1];
      }
    }
  }

  /**
   * The sort stage: an insertion sort. Each patient goes in front of the later patients
   * with an equal key, so ties keep the order of the filtered list, as the stable
   * `Array.prototype.sort` does.
   */
  function SortPatients(s: seq<Patient>, key: SortBy, dir: Direction): (r: seq<Patient>)
    ensures |r| == |s|
    ensures multiset(r) == multiset(s)
    ensures Sorted(r, key, dir)
  {
    if s == [] then []
    else
      assert s == [s[0]] + s[1..];
      Insert(s[0], SortPatients(s[1..], key, dir), key, dir)
  }

  /** What each key and direction means for the order of the sorted list. */
  lemma SortOrder(s: seq<Patient>, key: SortBy, dir: Direction, i: int, j: int)
    requires 0 <= i < j < |s|
    ensures var r := SortPatients(s, key, dir);
      && (key == WaitTime && dir == Asc ==> r[i].waitTime <= r[j].waitTime)
      && (key == WaitTime && dir == Desc ==> r[i].waitTime >= r[j].waitTime)
      && (key == PriorityOrder && dir == Asc ==> Rank(r[i].priority) <= Rank(r[j].priority))
      && (key == PriorityOrder && dir == Desc ==> Rank(r[i].priority) >= Rank(r[j].priority))
  {
    var r := SortPatients(s, key, dir);
    assert SortKey(key, dir, r[i]) <= SortKey(key, dir, r[j]);
  }

  /** A list already in order comes out of the sort unchanged. */
  lemma {:induction false} SortKeepsSorted(s: seq<Patient>, key: SortBy, dir: Direction)
    requires Sorted(s, key, dir)
    ensures SortPatients(s, key, dir) == s
  {
    if s != [] {
      assert Sorted(s[1..], key, dir);
      SortKeepsSorted(s[1..], key, dir);
      assert s == [s[0]] + s[1..];
    }
  }

  /** Sorting twice is sorting once. */
  lemma SortIdempotent(s: seq<Patient>, key: SortBy, dir: Direction)
    ensures SortPatients(SortPatients(s, key, dir), key, dir) == SortPatients(s, key, dir)
  {
    SortKeepsSorted(SortPatients(s, key, dir), key, dir);
  }

  /** No two different patients of `m` share a key. */
  ghost predicate KeysDistinct(m: multiset<Patient>, key: SortBy) {
    forall p, q :: p in m && q in m && Key(key, p) == Key(key, q) ==> p == q
  }

  /** Two non-empty ascending lists with the same patients and distinct keys start alike. */
  lemma HeadsAgree(a: seq<Patient>, b: seq<Patient>, key: SortBy)
    requires a != [] && b != [] && multiset(a) == multiset(b)
    requires Sorted(a, key, Asc) && Sorted(b, key, Asc)
    requires KeysDistinct(multiset(a), key)
    ensures a[0] == b[0]
  {
    assert a[0] in multiset(b) && b[0] in multiset(a);
    var j :| 0 <= j < |b| && b[j] == a[0];
    var i :| 0 <= i < |a| && a[i] == b[0];
    assert SortKey(key, Asc, a[0]) <= SortKey(key, Asc, a[i]);
    assert SortKey(key, Asc, b[0]) <= SortKey(key, Asc, b[j]);
  }

  /** Dropping the first patient keeps a list sorted. */
  lemma SortedTail(s: seq<Patient>, key: SortBy, dir: Direction)
    requires s != [] && Sorted(s, key, dir)
    ensures Sorted(s[1..], key, dir)
  {
    forall i, j | 0 <= i < j < |s| - 1
      ensures SortKey(key, dir, s[1..][i]) <= SortKey(key, dir, s[1..][j])
    {
      assert s[1..][i] == s[i + 1] && s[1..][j] == s[j + 1];
    }
  }

  /** Fewer patients still have distinct keys. */
  lemma KeysDistinctSub(m: multiset<Patient>, n: multiset<Patient>, key: SortBy)
    requires n <= m && KeysDistinct(m, key)
    ensures KeysDistinct(n, key)
  {
  }

  /** After equal first patients, the rests of two such lists are again such lists. */
  lemma TailsAgree(a: seq<Patient>, b: seq<Patient>, key: SortBy)
    requires a != [] && b != [] && a[0] == b[0] && multiset(a) == multiset(b)
    requires Sorted(a, key, Asc) && Sorted(b, key, Asc)
    requires KeysDistinct(multiset(a), key)
    ensures multiset(a[1..]) == multiset(b[1..])
    ensures Sorted(a[1..], key, Asc) && Sorted(b[1..], key, Asc)
    ensures KeysDistinct(multiset(a[1..]), key)
  {
    assert a == [a[0]] + a[1..] && b == [b[0]] + b[1..];
    KeysDistinctSub(multiset(a), multiset(a[1..]), key);
    SortedTail(a, key, Asc);
    SortedTail(b, key, Asc);
  }

  /**
   * Two lists in ascending order holding the same patients are the same list, once no two
   * different patients share a key.
   */
  lemma {:induction false} AscendingUnique(a: seq<Patient>, b: seq<Patient>, key: SortBy)
    requires multiset(a) == multiset(b)
    requires Sorted(a, key, Asc) && Sorted(b, key, Asc)
    requires KeysDistinct(multiset(a), key)
    ensures a == b
    decreases |a|
  {
    assert |a| == |multiset(a)| == |b|;
    if a != [] {
      HeadsAgree(a, b, key);
      TailsAgree(a, b, key);
      AscendingUnique(a[1..], b[1..], key);
      assert a == [a[0]] + a[1..] && b == [b[0]] + b[1..];
    }
  }

  /**
   * With no two different patients sharing a key, ascending order is descending order read
   * back to front.
   */
  lemma ReverseDirection(s: seq<Patient>, key: SortBy)
    requires forall p, q :: p in multiset(s) && q in multiset(s) && Key(key, p) == Key(key, q) ==> p == q
    ensures SortPatients(s, key, Asc) == Rev(SortPatients(s, key, Desc))
  {
    var d := SortPatients(s, key, Desc);
    var r := Rev(d);
    assert Sorted(r, key, Asc) by {
      forall i, j | 0 <= i < j < |r|
        ensures SortKey(key, Asc, r[i]) <= SortKey(key, Asc, r[j])
      {
        assert SortKey(key, Desc, d[|d| - 1 - j]) <= SortKey(key, Desc, d[|d| - 1 - i]);
      }
    }
    AscendingUnique(SortPatients(s, key, Asc), r, key);
  }

  /** `filteredAndSortedPatients`. */
  function Displayed(ps: seq<Patient>, c: Criteria, key: SortBy, dir: Direction): (r: seq<Patient>)
    ensures multiset(r) == multiset(FilterPatients(ps, c))
    ensures forall p :: p in r <==> p in ps && Matches(c, p)
    ensures Sorted(r, key, dir)
  {
    var f := FilterPatients(ps, c);
    var r := SortPatients(f, key, dir);
    assert forall p :: p in r <==> p in f by {
      forall p ensures p in r <==> p in f {
        assert p in r <==> multiset(r)[p] > 0;
        assert p in f <==> multiset(f)[p] > 0;
      }
    }
    assert forall p :: p in f <==> p in ps && Matches(c, p) by {
      forall p ensures p in f <==> p in ps && Matches(c, p) {
        assert p in ps <==> multiset(ps)[p] > 0;
        assert p in f <==> multiset(f)[p] > 0;
      }
    }
    r
  }

  /** A test on patients, for the status counts. */
  function HasStatus(st: Status): Patient -> bool {
    (p: Patient) => p.status == st
  }

  /** `patients.filter((p) => p.status === st).length`. */
  function StatusCount(ps: seq<Patient>, st: Status): (n: nat)
    ensures n <= |ps|
    ensures n == 0 <==> forall p :: p in ps ==> p.status != st
  {
    var f := Filter(ps, HasStatus(st));
    FilterMembers(ps, HasStatus(st));
    assert f != [] ==> f[0] in f;
    |f|
  }

  /** The Waiting and In Progress tiles never add up to more than the Total tile. */
  lemma WaitingAndInProgressBounded(ps: seq<Patient>)
    ensures StatusCount(ps, Waiting) + StatusCount(ps, InProgress) <= |ps|
  {
    CountDisjoint(ps, HasStatus(Waiting), HasStatus(InProgress));
  }

  /** `patients.reduce((sum, p) => sum + p.waitTime, 0)`. */
  function TotalWait(ps: seq<Patient>): int {
    if ps == [] then 0 else TotalWait(ps[..|ps| - 1]) + ps[|ps| - 1].waitTime
  }

  /**
   * `Math.round(total / patients.length)`, the Avg. Wait Time tile: the mean of the wait
   * times rounded half up. The source divides unguarded, so the mean is only meaningful
   * for a non-empty roster, which the queue always holds.
   */
  function AverageWaitTime(ps: seq<Patient>): (r: int)
    requires |ps| > 0
    ensures 2 * TotalWait(ps) - |ps| < 2 * |ps| * r <= 2 * TotalWait(ps) + |ps|
  {
    RoundDiv(TotalWait(ps), |ps|)
  }

  lemma {:induction false} TotalWaitBounds(ps: seq<Patient>, lo: int, hi: int)
    requires forall p :: p in ps ==> lo <= p.waitTime <= hi
    ensures lo * |ps| <= TotalWait(ps) <= hi * |ps|
  {
    if ps != [] {
      var init := ps[..|ps| - 1];
      forall p | p in init
        ensures lo <= p.waitTime <= hi
      {
        assert p in ps;
      }
      TotalWaitBounds(init, lo, hi);
      assert ps[|ps| - 1] in ps;
      MulSucc(lo, |init|);
      MulSucc(hi, |init|);
    }
  }

  /** The average lies between the shortest and the longest wait. */
  lemma AverageWithinBounds(ps: seq<Patient>, lo: int, hi: int)
    requires |ps| > 0
    requires forall p :: p in ps ==> lo <= p.waitTime <= hi
    ensures lo <= AverageWaitTime(ps) <= hi
  {
    TotalWaitBounds(ps, lo, hi);
    RoundDivBounds(TotalWait(ps), |ps|, lo, hi);
  }

  /** `P-${Math.floor(Math.random() * 10000)}`: the id used when the form brings none. */
  function FallbackId(r: UnitReal): (id: string)
    ensures |id| >= 3 && id[..2] == "P-"
    ensures forall i :: 2 <= i < |id| ==> '0' <= id[i] <= '9'
  {
    "P-" + Decimal(ScaledFloor(r, 10000))
  }

  /** `Math.floor(Math.random() * 60) + 15`. */
  function NewWaitTime(r: UnitReal): (w: int)
    ensures 15 <= w <= 74
  {
    ScaledFloor(r, 60) + 15
  }

  /** The record `handleAddPatient` builds from the submitted form. */
  function NewPatient(d: PatientData, idDraw: UnitReal, waitDraw: UnitReal, now: string): (p: Patient)
    ensures p.status == Waiting
    ensures p.priority.Name() == Lower(d.priority.Label())
    ensures Truthy(d.id) ==> p.id == d.id
    ensures !Truthy(d.id) ==> p.id == FallbackId(idDraw)
    ensures 15 <= p.waitTime <= 74
    ensures p.name == d.name && p.department == d.department && p.arrivalTime == now
  {
    NameIsLowerLabel(d.priority);
    Patient(
      if Truthy(d.id) then d.id else FallbackId(idDraw),
      d.name,
      NewWaitTime(waitDraw),
      d.priority,
      d.department,
      now,
      Waiting)
  }

  /** The roster the screen starts from when it is given an empty one. */
  const JohnDoe := Patient("P-12345", "John Doe", 45, Medium, "Emergency", "10:30 AM", Waiting)
  const JaneSmith := Patient("P-12346", "Jane Smith", 30, High, "Cardiology", "10:45 AM", Waiting)
  const RobertJohnson := Patient("P-12347", "Robert Johnson", 15, Critical, "Emergency", "11:00 AM", InProgress)
  const EmilyDavis := Patient("P-12348", "Emily Davis", 60, Low, "General Medicine", "10:15 AM", Waiting)
  const MichaelWilson := Patient("P-12349", "Michael Wilson", 25, Medium, "Neurology", "10:50 AM", Waiting)
  const DefaultPatients: seq<Patient> := [JohnDoe, JaneSmith, RobertJohnson, EmilyDavis, MichaelWilson]

  /** The default roster filtered to Emergency: John Doe and Robert Johnson, in that order. */
  lemma DefaultEmergencyFilter()
    ensures FilterPatients(DefaultPatients, NoFilters.(department := "Emergency")) == [JohnDoe, RobertJohnson]
  {
    EmergencyKept();
  }

  /** The Emergency test, one default patient at a time. */
  lemma EmergencyKept()
    ensures Filter(DefaultPatients, MatchesAll(NoFilters.(department := "Emergency"))) == [JohnDoe, RobertJohnson]
  {
    var keep := MatchesAll(NoFilters.(department := "Emergency"));
    EmergencyMatches();
    FilterFour(JaneSmith, RobertJohnson, EmilyDavis, MichaelWilson, keep);
    FilterCons(JohnDoe, [JaneSmith, RobertJohnson, EmilyDavis, MichaelWilson], keep);
    assert DefaultPatients == [JohnDoe] + [JaneSmith, RobertJohnson, EmilyDavis, MichaelWilson];
    assert Kept(JohnDoe, keep) == [JohnDoe] && Kept(RobertJohnson, keep) == [RobertJohnson];
    assert Kept(JaneSmith, keep) == Kept(EmilyDavis, keep) == Kept(MichaelWilson, keep) == [];
  }

  lemma EmergencyMatches()
    ensures var c := NoFilters.(department := "Emergency");
      Matches(c, JohnDoe) && !Matches(c, JaneSmith) && Matches(c, RobertJohnson)
      && !Matches(c, EmilyDavis) && !Matches(c, MichaelWilson)
  {
  }

  /** The four tiles of the queue summary. */
  datatype Summary = Summary(total: nat, waiting: nat, inProgress: nat, averageWait: int)

  /** The component state of the patient queue screen. */
  class Queue {
    var patients: seq<Patient>
    var searchQuery: string
    var departmentFilter: string
    var priorityFilter: string
    var statusFilter: string
    var sortBy: SortBy
    var sortDirection: Direction

    /** The roster is never empty: it starts non-empty and only grows. */
    ghost predicate Valid()
      reads this
    {
      |patients| > 0
    }

    /** The given roster, or the default one when it is empty; no filters; priority, descending. */
    constructor (initialPatients: seq<Patient>)
      ensures Valid()
      ensures patients == if |initialPatients| > 0 then initialPatients else DefaultPatients
      ensures Selections() == NoFilters
      ensures sortBy == PriorityOrder && sortDirection == Desc
    {
      patients := if |initialPatients| > 0 then initialPatients else DefaultPatients;
      searchQuery := "";
      departmentFilter := AllDepartments;
      priorityFilter := AllPriorities;
      statusFilter := AllStatus;
      sortBy := PriorityOrder;
      sortDirection := Desc;
    }

    function Selections(): Criteria
      reads this
    {
      Criteria(searchQuery, departmentFilter, priorityFilter, statusFilter)
    }

    /** The list the screen shows. */
    function Shown(): seq<Patient>
      reads this
    {
      Displayed(patients, Selections(), sortBy, sortDirection)
    }

    /** The summary tiles, always over the whole roster. */
    function Tiles(): (s: Summary)
      reads this
      requires Valid()
      ensures s.total == |patients|
      ensures s.waiting + s.inProgress <= s.total
    {
      WaitingAndInProgressBounded(patients);
      Summary(|patients|, StatusCount(patients, Waiting), StatusCount(patients, InProgress),
              AverageWaitTime(patients))
    }

    /**
     * `handleAddPatient`: the new patient is appended whatever the remote insert reports,
     * and the form data is passed on to `onAddPatient`.
     */
    method HandleAddPatient(d: PatientData, idDraw: UnitReal, waitDraw: UnitReal, now: string)
      returns (forwarded: PatientData)
      requires Valid()
      modifies this`patients
      ensures Valid()
      ensures patients == old(patients) + [NewPatient(d, idDraw, waitDraw, now)]
      ensures forwarded == d
    {
      patients := patients + [NewPatient(d, idDraw, waitDraw, now)];
      forwarded := d;
    }

    /** `toggleSortDirection`: the other direction; nothing else changes. */
    method ToggleSortDirection()
      modifies this`sortDirection
      ensures sortDirection == Flip(old(sortDirection))
    {
      sortDirection := if sortDirection == Asc then Desc else Asc;
    }

    /** `clearFilters`: every filter back to its wildcard; the sort is left alone. */
    method ClearFilters()
      modifies this`searchQuery, this`departmentFilter, this`priorityFilter, this`statusFilter
      ensures Selections() == NoFilters
      ensures sortBy == old(sortBy) && sortDirection == old(sortDirection)
      ensures patients == old(patients)
    {
      searchQuery := "";
      departmentFilter := AllDepartments;
      priorityFilter := AllPriorities;
      statusFilter := AllStatus;
    }

    /** The search box's `onChangeText`. */
    method SetSearchQuery(q: string)
      modifies this`searchQuery
      ensures Selections() == old(Selections()).(searchQuery := q)
    {
      searchQuery := q;
    }

    /** A pick in the department dropdown. */
    method SelectDepartment(dept: string)
      modifies this`departmentFilter
      ensures Selections() == old(Selections()).(department := dept)
    {
      departmentFilter := dept;
    }

    /** A pick in the priority dropdown. */
    method SelectPriority(priority: string)
      modifies this`priorityFilter
      ensures Selections() == old(Selections()).(priority := priority)
    {
      priorityFilter := priority;
    }

    /** A pick in the status dropdown. */
    method SelectStatus(status: string)
      modifies this`statusFilter
      ensures Selections() == old(Selections()).(status := status)
    {
      statusFilter := status;
    }

    /** The Priority and Wait Time sort buttons. */
    method SetSortBy(key: SortBy)
      modifies this`sortBy
      ensures sortBy == key && sortDirection == old(sortDirection)
    {
      sortBy := key;
    }
  }
}
