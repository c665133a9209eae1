/**
 * The alert creation form (components/dashboard/AlertForm.tsx): a draft record replaced field
 * by field by its setters, a department list toggled like a set, the colour of each severity
 * button, and a submit that hands the draft over as it stands.
 */
module AlertForm {
  import opened Wrappers
  import opened Seqs
  import opened EmergencyAlerts

  /** The form's `AlertData`. */
  datatype Draft = Draft(
    alertType: string,
    location: string,
    severity: Severity,
    description: string,
    departments: seq<string>)

  /** The draft the form opens with. */
  const InitialDraft := Draft("", "", Medium, "", [])

  /** The department chips offered. */
  const AvailableDepartments: seq<string> :=
    ["Emergency Room", "ICU", "Surgery", "Pediatrics", "Cardiology", "Neurology", "Oncology", "Radiology"]

  /** The alert type chips offered. */
  const AlertTypes: seq<string> :=
    ["Medical Emergency", "Staff Shortage", "Equipment Failure", "Capacity Overflow",
     "Security Incident", "Facility Issue"]

  function Other(d: string): string -> bool {
    (x: string) => x != d
  }

  /** Every value occurs at most once. */
  ghost predicate NoDuplicates(s: seq<string>) {
    forall x :: multiset(s)[x] <= 1
  }

  /**
   * The department list after `handleDepartmentToggle(dept)`: a present department is
   * removed wherever it occurs, an absent one is appended at the end.
   */
  function Toggle(departments: seq<string>, dept: string): (r: seq<string>)
    ensures dept in r <==> dept !in departments
    ensures forall x :: x != dept ==> (x in r <==> x in departments)
    ensures dept !in departments ==> r == departments + [dept]
    ensures dept in departments ==> IsSubsequence(r, departments)
    ensures dept in departments ==>
      forall x :: multiset(r)[x] == if x == dept then 0 else multiset(departments)[x]
  {
    if dept in departments then
      FilterMembers(departments, Other(dept));
      FilterSubsequence(departments, Other(dept));
      FilterMultiset(departments, Other(dept));
      Filter(departments, Other(dept))
    else
      departments + [dept]
  }

  /** Toggling an absent department twice gives the list back. */
  lemma ToggleTwice(departments: seq<string>, dept: string)
    requires dept !in departments
    ensures Toggle(Toggle(departments, dept), dept) == departments
  {
    FilterAppend(departments, [dept], Other(dept));
    FilterKeepsAll(departments, Other(dept));
    assert Filter([dept], Other(dept)) == [];
  }

  /** A toggle never introduces a duplicate. */
  lemma ToggleNoDuplicates(departments: seq<string>, dept: string)
    requires NoDuplicates(departments)
    ensures NoDuplicates(Toggle(departments, dept))
  {
    var r := Toggle(departments, dept);
    if dept !in departments {
      assert forall x :: multiset(r)[x] == multiset(departments)[x] + (if x == dept then 1 else 0);
    }
  }

  /** The other departments keep their relative order through a toggle. */
  lemma ToggleKeepsOrder(departments: seq<string>, dept: string)
    ensures Filter(Toggle(departments, dept), Other(dept)) == Filter(departments, Other(dept))
  {
    if dept in departments {
      FilterIdempotent(departments, Other(dept));
    } else {
      FilterAppend(departments, [dept], Other(dept));
      assert Filter([dept], Other(dept)) == [];
    }
  }

  /** The levels of the severity buttons, in order. */
  const Levels: seq<string> := ["low", "medium", "high", "critical"]

  /** The colour of a level's button when `selected` is the draft's severity. */
  function SeverityColor(level: string, selected: string): (c: string)
    ensures c != "bg-gray-200" <==> level == selected && level in Levels
    ensures level == selected && level == "low" ==> c == "bg-yellow-500"
    ensures level == selected && level == "medium" ==> c == "bg-orange-500"
    ensures level == selected && level == "high" ==> c == "bg-red-500"
    ensures level == selected && level == "critical" ==> c == "bg-purple-700"
  {
    if level != selected then "bg-gray-200"
    else if level == "low" then "bg-yellow-500"
    else if level == "medium" then "bg-orange-500"
    else if level == "high" then "bg-red-500"
    else if level == "critical" then "bg-purple-700"
    else "bg-gray-200"
  }

  /** Every level has its own colour when selected, so the selected button is told apart. */
  lemma SelectedColorsDistinct(a: string, b: string)
    requires a in Levels && b in Levels && a != b
    ensures SeverityColor(a, a) != SeverityColor(b, b)
  {
  }

  /** Exactly one of the four buttons is coloured: the draft's own severity. */
  lemma OneButtonColored(draft: Draft, level: string)
    requires level in Levels
    ensures SeverityColor(level, draft.severity.Name()) != "bg-gray-200" <==> level == draft.severity.Name()
  {
  }

  /** The component state of the form. */
  class Form {
    var alertData: Draft

    constructor ()
      ensures alertData == InitialDraft
    {
      alertData := InitialDraft;
    }

    /** Pressing an alert type chip. */
    method SelectType(t: string)
      modifies this
      ensures alertData == old(alertData).(alertType := t)
    {
      alertData := alertData.(alertType := t);
    }

    /** Typing in the location field. */
    method SetLocation(location: string)
      modifies this
      ensures alertData == old(alertData).(location := location)
    {
      alertData := alertData.(location := location);
    }

    /** Pressing a severity button. */
    method SelectSeverity(level: Severity)
      modifies this
      ensures alertData == old(alertData).(severity := level)
    {
      alertData := alertData.(severity := level);
    }

    /** Typing in the description field. */
    method SetDescription(description: string)
      modifies this
      ensures alertData == old(alertData).(description := description)
    {
      alertData := alertData.(description := description);
    }

    /** `handleDepartmentToggle`: only the department list changes. */
    method ToggleDepartment(dept: string)
      modifies this
      ensures alertData == old(alertData).(departments := Toggle(old(alertData).departments, dept))
      ensures dept in alertData.departments <==> dept !in old(alertData).departments
    {
      alertData := alertData.(departments := Toggle(alertData.departments, dept));
    }

    /**
     * `handleSubmit`: the draft goes to `onSubmit`, when one is given, exactly as it stands;
     * nothing is checked and the form keeps its state.
     */
    method HandleSubmit(hasOnSubmit: bool) returns (submitted: Option<Draft>)
      ensures hasOnSubmit <==> submitted.Some?
      ensures submitted.Some? ==> submitted.value == alertData
    {
      submitted := if hasOnSubmit then Some(alertData) else None;
    }
  }
}
