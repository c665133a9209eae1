/**
 * The intake form of the patient queue (components/dashboard/AddPatientForm.tsx): a
 * `patientData` record edited one field at a time and handed over, unvalidated, on submit,
 * after which the form is reset with a fresh random id.
 */
module AddPatientForm {
  import opened Wrappers
  import opened Text
  import opened Numbers

  /** A triage priority. The form names it capitalised, the queue in lower case. */
  datatype Priority = Low | Medium | High | Critical {

    /** The form's label, as on its four priority buttons. */
    function Label(): string {
      match this
      case Low => "Low"
      case Medium => "Medium"
      case High => "High"
      case Critical => "Critical"
    }

    /** The queue's name for the priority, the lower-case value a patient record holds. */
    function Name(): string {
      match this
      case Low => "low"
      case Medium => "medium"
      case High => "high"
      case Critical => "critical"
    }
  }

  /** The queue's name of a priority is the lower-cased form label. */
  lemma NameIsLowerLabel(p: Priority)
    ensures Lower(p.Label()) == p.Name()
  {
  }

  /** The labels of the form's priority buttons, in display order. */
  const PriorityLabels: seq<string> := ["Low", "Medium", "High", "Critical"]

  /** The departments the form offers, in display order. */
  const Departments: seq<string> := [
    "Emergency", "General Medicine", "Cardiology", "Neurology",
    "Pediatrics", "Orthopedics", "Obstetrics & Gynecology", "Oncology"
  ]

  /** The priority a button label stands for. */
  function ParsePriority(s: string): (r: Option<Priority>)
    ensures r.Some? <==> s in PriorityLabels
    ensures r.Some? ==> r.value.Label() == s
  {
    if s == "Low" then Some(Low)
    else if s == "Medium" then Some(Medium)
    else if s == "High" then Some(High)
    else if s == "Critical" then Some(Critical)
    else None
  }

  /** Reading a label back gives the priority it labels. */
  lemma ParseLabel(p: Priority)
    ensures ParsePriority(p.Label()) == Some(p)
  {
  }

  datatype PatientData = PatientData(
    id: string,
    name: string,
    age: string,
    gender: string,
    contactNumber: string,
    priority: Priority,
    department: string,
    chiefComplaint: string,
    notes: string)

  /** A key of `PatientData`, as `handleChange` receives it. */
  datatype Field =
    | IdField | NameField | AgeField | GenderField | ContactNumberField
    | PriorityField | DepartmentField | ChiefComplaintField | NotesField

  /** The text a field of the record shows (the label, for the priority). */
  function FieldValue(d: PatientData, f: Field): string {
    match f
    case IdField => d.id
    case NameField => d.name
    case AgeField => d.age
    case GenderField => d.gender
    case ContactNumberField => d.contactNumber
    case PriorityField => d.priority.Label()
    case DepartmentField => d.department
    case ChiefComplaintField => d.chiefComplaint
    case NotesField => d.notes
  }

  /**
   * `{ ...prev, [field]: value }`. The priority buttons only ever pass one of the four
   * labels, which is what the record's type admits.
   */
  function WithField(d: PatientData, field: Field, value: string): (r: PatientData)
    requires field == PriorityField ==> value in PriorityLabels
    ensures FieldValue(r, field) == value
    ensures forall f :: f != field ==> FieldValue(r, f) == FieldValue(d, f)
  {
    match field
    case IdField => d.(id := value)
    case NameField => d.(name := value)
    case AgeField => d.(age := value)
    case GenderField => d.(gender := value)
    case ContactNumberField => d.(contactNumber := value)
    case PriorityField => d.(priority := ParsePriority(value).value)
    case DepartmentField => d.(department := value)
    case ChiefComplaintField => d.(chiefComplaint := value)
    case NotesField => d.(notes := value)
  }

  /** Two records that show the same text in every field are the same record. */
  lemma FieldsDetermineRecord(a: PatientData, b: PatientData)
    requires forall f :: FieldValue(a, f) == FieldValue(b, f)
    ensures a == b
  {
    assert FieldValue(a, PriorityField) == FieldValue(b, PriorityField);
    ParseLabel(a.priority);
    ParseLabel(b.priority);
    assert FieldValue(a, IdField) == FieldValue(b, IdField);
    assert FieldValue(a, NameField) == FieldValue(b, NameField);
    assert FieldValue(a, AgeField) == FieldValue(b, AgeField);
    assert FieldValue(a, GenderField) == FieldValue(b, GenderField);
    assert FieldValue(a, ContactNumberField) == FieldValue(b, ContactNumberField);
    assert FieldValue(a, DepartmentField) == FieldValue(b, DepartmentField);
    assert FieldValue(a, ChiefComplaintField) == FieldValue(b, ChiefComplaintField);
    assert FieldValue(a, NotesField) == FieldValue(b, NotesField);
  }

  /** Writing back the value a field already shows leaves the record as it was. */
  lemma {:induction false} WithOwnValue(d: PatientData, field: Field)
    ensures WithField(d, field, FieldValue(d, field)) == d
  {
    var r := WithField(d, field, FieldValue(d, field));
    forall f ensures FieldValue(r, f) == FieldValue(d, f) {
    }
    FieldsDetermineRecord(r, d);
  }

  /** `Math.floor(100000 + Math.random() * 900000)`: a six-digit number. */
  function IdNumber(r: UnitReal): (n: int)
    ensures 100000 <= n <= 999999
  {
    (100000.0 + r * 900000.0).Floor
  }

  /** A generated patient id: `P` followed by the six digits of `IdNumber(r)`. */
  function GenerateId(r: UnitReal): (id: string)
    ensures |id| == 7 && id[0] == 'P'
    ensures forall i :: 1 <= i < 7 ==> '0' <= id[i] <= '9'
    ensures id[1] != '0'
  {
    var n := IdNumber(r);
    assert Pow10(5) == 100000 && Pow10(6) == 1000000;
    DecimalLength(n, 6);
    "P" + Decimal(n)
  }

  /** Draws that give different numbers give different ids. */
  lemma GeneratedIdsDiffer(r1: UnitReal, r2: UnitReal)
    requires IdNumber(r1) != IdNumber(r2)
    ensures GenerateId(r1) != GenerateId(r2)
  {
    if GenerateId(r1) == GenerateId(r2) {
      assert GenerateId(r1)[1..] == Decimal(IdNumber(r1));
      assert GenerateId(r2)[1..] == Decimal(IdNumber(r2));
      DecimalInjective(IdNumber(r1), IdNumber(r2));
    }
  }

  /** The record the form starts from and is reset to. */
  function Defaults(id: string): (d: PatientData)
    ensures d.id == id
    ensures d.priority.Label() in PriorityLabels && d.priority == Medium
    ensures d.department in Departments && d.department == "Emergency"
    ensures d.name == d.age == d.gender == d.contactNumber == d.chiefComplaint == d.notes == ""
  {
    PatientData(id, "", "", "", "", Medium, "Emergency", "", "")
  }

  class Form {
    var patientData: PatientData

    /** A new form holds the defaults under a freshly generated id. */
    constructor (r: UnitReal)
      ensures patientData == Defaults(GenerateId(r))
    {
      patientData := Defaults(GenerateId(r));
    }

    /** `handleChange(field, value)`: only `field` takes the new value. */
    method HandleChange(field: Field, value: string)
      requires field == PriorityField ==> value in PriorityLabels
      modifies this
      ensures FieldValue(patientData, field) == value
      ensures forall f :: f != field ==> FieldValue(patientData, f) == FieldValue(old(patientData), f)
    {
      patientData := WithField(patientData, field, value);
    }

    /**
     * `handleSubmit`: the current record goes to `onSubmit` as it is, with no check on
     * its name or complaint, and the form is reset with a fresh id.
     */
    method HandleSubmit(r: UnitReal) returns (submitted: PatientData)
      modifies this
      ensures submitted == old(patientData)
      ensures patientData == Defaults(GenerateId(r))
    {
      submitted := patientData;
      patientData := Defaults(GenerateId(r));
    }
  }
}
