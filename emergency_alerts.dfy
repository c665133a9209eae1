/**
 * The alert board (components/dashboard/EmergencyAlerts.tsx): the active alerts narrowed by a
 * severity-or-type filter and a free-text search, and the four severity counts, which are
 * always taken over the unfiltered list.
 */
module EmergencyAlerts {
  import opened Text
  import opened Seqs

  datatype Severity = Critical | High | Medium | Low {

    /** The severity as the record spells it. */
    function Name(): string {
      match this
      case Critical => "critical"
      case High => "high"
      case Medium => "medium"
      case Low => "low"
    }
  }

  datatype Alert = Alert(
    id: string,
    alertType: string,
    location: string,
    timestamp: string,
    severity: Severity,
    affectedDepartments: seq<string>,
    description: string,
    suggestedActions: seq<string>)

  /** The filter dropdown's wildcard. */
  const AllAlerts: string := "All Alerts"

  /** The filter dropdown's options. */
  const FilterOptions: seq<string> :=
    ["All Alerts", "Critical", "High", "Medium", "Low", "Code Blue", "Fire", "Security"]

  /** The first test: the severity equals the lowercased filter, or the type includes it. */
  predicate FilterHit(selected: string, a: Alert) {
    a.severity.Name() == Lower(selected) || Contains(Lower(a.alertType), Lower(selected))
  }

  /** The second test: the type, the location or the description includes the query. */
  predicate QueryHit(query: string, a: Alert) {
    || Contains(Lower(a.alertType), Lower(query))
    || Contains(Lower(a.location), Lower(query))
    || Contains(Lower(a.description), Lower(query))
  }

  /** The predicate of `filteredAlerts`. */
  predicate AlertMatches(selected: string, query: string, a: Alert) {
    (selected == AllAlerts || FilterHit(selected, a)) && (query == "" || QueryHit(query, a))
  }

  function AlertTest(selected: string, query: string): Alert -> bool {
    (a: Alert) => AlertMatches(selected, query, a)
  }

  /** `filteredAlerts`. */
  function FilteredAlerts(alerts: seq<Alert>, selected: string, query: string): (r: seq<Alert>)
    ensures IsSubsequence(r, alerts)
    ensures forall a :: a in r <==> a in alerts && AlertMatches(selected, query, a)
    ensures forall a :: multiset(r)[a] == if AlertMatches(selected, query, a) then multiset(alerts)[a] else 0
    ensures forall a :: a in r ==>
      && (selected != AllAlerts ==> FilterHit(selected, a))
      && (query != "" ==> QueryHit(query, a))
    ensures selected == AllAlerts && query == "" ==> r == alerts
  {
    FilterSubsequence(alerts, AlertTest(selected, query));
    FilterMembers(alerts, AlertTest(selected, query));
    FilterMultiset(alerts, AlertTest(selected, query));
    assert selected == AllAlerts && query == "" ==> Filter(alerts, AlertTest(selected, query)) == alerts by {
      if selected == AllAlerts && query == "" {
        FilterKeepsAll(alerts, AlertTest(selected, query));
      }
    }
    Filter(alerts, AlertTest(selected, query))
  }

  /** The id and the affected departments play no part in the filter or the search. */
  lemma IdAndDepartmentsNotSearched(selected: string, query: string, a: Alert, id: string, depts: seq<string>)
    ensures AlertMatches(selected, query, a.(id := id, affectedDepartments := depts))
        == AlertMatches(selected, query, a)
  {
  }

  function HasSeverity(s: Severity): Alert -> bool {
    (a: Alert) => a.severity == s
  }

  /** The four summary counts. */
  datatype SeverityCounts = SeverityCounts(critical: nat, high: nat, medium: nat, low: nat)

  /** `activeAlerts.filter((a) => a.severity === s).length` for each severity. */
  function CountsBySeverity(alerts: seq<Alert>): (c: SeverityCounts)
    ensures c.critical + c.high + c.medium + c.low == |alerts|
  {
    SeverityPartition(alerts);
    SeverityCounts(Count(alerts, HasSeverity(Critical)), Count(alerts, HasSeverity(High)),
                   Count(alerts, HasSeverity(Medium)), Count(alerts, HasSeverity(Low)))
  }

  /** Each alert has exactly one severity, so the four counts cover the list. */
  lemma {:induction false} SeverityPartition(alerts: seq<Alert>)
    ensures Count(alerts, HasSeverity(Critical)) + Count(alerts, HasSeverity(High))
          + Count(alerts, HasSeverity(Medium)) + Count(alerts, HasSeverity(Low)) == |alerts|
  {
    if alerts != [] {
      SeverityPartition(alerts[1..]);
      FilterStep(alerts, HasSeverity(Critical));
      FilterStep(alerts, HasSeverity(High));
      FilterStep(alerts, HasSeverity(Medium));
      FilterStep(alerts, HasSeverity(Low));
    }
  }

  /** The alerts the board shows when it is given none. */
  const CodeBlue := Alert("ALT-2023-0042", "Code Blue", "ICU, Floor 3, Room 302", "2023-06-15 14:32",
    Critical, ["ICU", "Emergency", "Cardiology"],
    "Patient experiencing cardiac arrest. Immediate response required.",
    ["Deploy crash cart to location", "Notify on-call cardiologist", "Clear path to emergency elevator"])
  const LabFire := Alert("ALT-2023-0041", "Fire", "Laboratory, Floor 2", "2023-06-15 13:45",
    High, ["Laboratory", "Radiology"],
    "Small chemical fire in lab. Containment procedures initiated.",
    ["Evacuate immediate area", "Activate fire suppression system", "Notify safety officer"])
  const EntranceSecurity := Alert("ALT-2023-0040", "Security", "Emergency Department, Main Entrance",
    "2023-06-15 12:10", Medium, ["Emergency", "Security"],
    "Disruptive individual in waiting area. Security assistance needed.",
    ["Deploy security personnel", "Secure affected area", "Prepare incident report"])
  const MassCasualty := Alert("ALT-2023-0039", "Mass Casualty", "Emergency Department", "2023-06-15 10:22",
    Critical, ["Emergency", "Surgery", "ICU", "Radiology"],
    "Multiple trauma patients incoming from highway accident. ETA 10 minutes.",
    ["Activate mass casualty protocol", "Clear non-critical patients", "Call in additional staff",
     "Prepare operating rooms"])
  const DefaultAlerts: seq<Alert> := [CodeBlue, LabFire, EntranceSecurity, MassCasualty]

  lemma LowerCritical()
    ensures Lower("Critical") == "critical"
  {
    LowerIs("Critical", "critical");
  }

  lemma LowerFire()
    ensures Lower("Fire") == "fire"
  {
    LowerIs("Fire", "fire");
  }

  /** Which default alerts the filter "Critical" lets through: the two critical ones. */
  lemma CriticalHits()
    ensures FilterHit("Critical", CodeBlue) && FilterHit("Critical", MassCasualty)
  {
    LowerCritical();
  }

  lemma CriticalMisses()
    ensures !FilterHit("Critical", LabFire) && !FilterHit("Critical", EntranceSecurity)
  {
    LowerCritical();
    NotInLower("Fire", 'a');
    MissingChar(Lower("Fire"), "critical", 'a');
    NotInLower("Security", 'a');
    MissingChar(Lower("Security"), "critical", 'a');
  }

  /** Filter "Critical" on the default alerts keeps ALT-2023-0042 and ALT-2023-0039. */
  lemma DefaultCritical()
    ensures FilteredAlerts(DefaultAlerts, "Critical", "") == [CodeBlue, MassCasualty]
  {
    var keep := AlertTest("Critical", "");
    CriticalHits();
    CriticalMisses();
    FilterFour(CodeBlue, LabFire, EntranceSecurity, MassCasualty, keep);
  }

  /** Which default alerts the filter "Fire" lets through: only the fire. */
  lemma FireHits()
    ensures FilterHit("Fire", LabFire)
  {
    LowerFire();
    ContainsSelf("fire");
  }

  lemma FireMisses()
    ensures !FilterHit("Fire", CodeBlue) && !FilterHit("Fire", EntranceSecurity)
    ensures !FilterHit("Fire", MassCasualty)
  {
    FireMissesCodeBlue();
    FireMissesSecurity();
    FireMissesMassCasualty();
  }

  lemma FireMissesCodeBlue()
    ensures !FilterHit("Fire", CodeBlue)
  {
    LowerFire();
    NotInLower("Code Blue", 'f');
    MissingChar(Lower("Code Blue"), "fire", 'f');
  }

  lemma FireMissesSecurity()
    ensures !FilterHit("Fire", EntranceSecurity)
  {
    LowerFire();
    NotInLower("Security", 'f');
    MissingChar(Lower("Security"), "fire", 'f');
  }

  lemma FireMissesMassCasualty()
    ensures !FilterHit("Fire", MassCasualty)
  {
    LowerFire();
    NotInLower("Mass Casualty", 'f');
    MissingChar(Lower("Mass Casualty"), "fire", 'f');
  }

  /** Filter "Fire" on the default alerts keeps only ALT-2023-0041. */
  lemma DefaultFire()
    ensures FilteredAlerts(DefaultAlerts, "Fire", "") == [LabFire]
  {
    var keep := AlertTest("Fire", "");
    FireHits();
    FireMisses();
    FilterFour(CodeBlue, LabFire, EntranceSecurity, MassCasualty, keep);
  }
}
