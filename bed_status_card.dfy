/**
 * One bed's card (components/dashboard/BedStatusCard.tsx): the buttons it offers and the
 * row update it sends when one is pressed, after which it reports the change upwards.
 */
module BedStatusCard {
  import opened Wrappers
  import opened BedManagement

  /** A column of the update payload: not sent, sent as `null`, or sent with a text. */
  datatype Column = Unset | Null | Text(value: string)

  /** The object passed to `update` for the `beds` row. */
  datatype Payload = Payload(status: BedStatus, patientName: Column, admissionTime: Column)

  /**
   * The spread expression of `handleStatusChange`: the status always; both patient columns
   * nulled for Available; "New Patient" and the time for Occupied on a card without a name.
   */
  function UpdatePayload(newStatus: BedStatus, patientName: Option<string>, now: string): (p: Payload)
    ensures p.status == newStatus
    ensures newStatus == Available ==> p.patientName == Null && p.admissionTime == Null
    ensures newStatus == Occupied && !NamePresent(patientName) ==>
      p.patientName == Text("New Patient") && p.admissionTime == Text(now)
    ensures newStatus == Maintenance || (newStatus == Occupied && NamePresent(patientName)) ==>
      p.patientName == Unset && p.admissionTime == Unset
  {
    var nulls := newStatus == Available;
    var filled := newStatus == Occupied && !NamePresent(patientName);
    Payload(newStatus,
            if nulls then Null else if filled then Text("New Patient") else Unset,
            if nulls then Null else if filled then Text(now) else Unset)
  }

  /** A column written to an optional field: kept, cleared or set. */
  function Write(c: Column, current: Option<string>): Option<string> {
    match c
    case Unset => current
    case Null => None
    case Text(v) => Some(v)
  }

  /** The bed row after the update is applied to it. */
  function ApplyPayload(b: Bed, p: Payload): Bed {
    b.(status := p.status,
       patientName := Write(p.patientName, b.patientName),
       admissionTime := Write(p.admissionTime, b.admissionTime))
  }

  /**
   * The row the card writes remotely is the bed the board computes locally: the payload and
   * `handleStatusChange`'s rewrite agree on every status and every card.
   */
  lemma PayloadAgreesWithBoard(b: Bed, newStatus: BedStatus, now: string)
    ensures ApplyPayload(b, UpdatePayload(newStatus, b.patientName, now)) == UpdateBed(b, b.id, newStatus, now)
  {
  }

  /** The buttons under the card, in order: Available, Occupied, Maintenance, minus the current one. */
  function OfferedStatuses(status: BedStatus): (r: seq<BedStatus>)
    ensures |r| == 2
    ensures status !in r
    ensures forall s: BedStatus :: s != status ==> s in r
    ensures r[0] != r[1]
  {
    (if status != Available then [Available] else [])
    + (if status != Occupied then [Occupied] else [])
    + (if status != Maintenance then [Maintenance] else [])
  }

  /** What a press does: the row update to send, and the call to `onStatusChange`. */
  datatype Press = Press(payload: Payload, reportedId: string, reportedStatus: BedStatus)

  /**
   * `handleStatusChange` on the card of bed `b`. The remote outcome is only logged, so it is
   * not an input: the report goes upwards in every case.
   */
  function OnPress(b: Bed, newStatus: BedStatus, now: string): (r: Press)
    ensures r.reportedId == b.id && r.reportedStatus == newStatus
    ensures ApplyPayload(b, r.payload) == UpdateBed(b, b.id, newStatus, now)
  {
    PayloadAgreesWithBoard(b, newStatus, now);
    Press(UpdatePayload(newStatus, b.patientName, now), b.id, newStatus)
  }
}
