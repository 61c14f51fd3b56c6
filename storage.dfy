/** The record store (`DatabaseStorage`) as two in-memory, append-only
    tables. Each insert takes the next value of its table's serial counter
    as the new row's id, so ids are assigned in increasing order. A database
    fault is an input: `fails` says the insert was rejected. */
module Store {
  import opened Js

  /** A contact-form submission as accepted by the insert schema. */
  datatype ContactInput = ContactInput(
    firstName: string, lastName: string, email: string,
    phone: Option<string>, service: Option<string>, vehicle: Option<string>,
    message: Option<string>, urgent: Option<bool>)

  /** A stored contact submission; `urgent` takes the column default
      `false` when the submission leaves it out. */
  datatype ContactSubmission = ContactSubmission(id: nat, data: ContactInput, urgent: bool)

  /** An appointment request as accepted by the insert schema (which leaves
      out `id`, `status` and `createdAt`, but keeps `calendarEventId`). */
  datatype AppointmentInput = AppointmentInput(
    firstName: string, lastName: string, email: string, phone: string,
    vehicle: string, service: string, date: string, time: string,
    notes: Option<string>, calendarEventId: Option<string>)

  /** A stored appointment; `status` takes the column default. */
  datatype Appointment = Appointment(id: nat, data: AppointmentInput, status: string)

  const DefaultStatus := "pending"

  /** The first value of a serial column. */
  const FirstId: nat := 1

  /** Row ids increase along the table and stay below the counter. */
  ghost predicate ContactIdsBelow(rows: seq<ContactSubmission>, next: nat) {
    (forall i, j :: 0 <= i < j < |rows| ==> rows[i].id < rows[j].id) &&
    (forall i :: 0 <= i < |rows| ==> FirstId <= rows[i].id < next)
  }

  ghost predicate AppointmentIdsBelow(rows: seq<Appointment>, next: nat) {
    (forall i, j :: 0 <= i < j < |rows| ==> rows[i].id < rows[j].id) &&
    (forall i :: 0 <= i < |rows| ==> FirstId <= rows[i].id < next)
  }

  /** In a table whose ids increase, an id names at most one row. */
  lemma ContactIdsUnique(rows: seq<ContactSubmission>, next: nat, i: nat, j: nat)
    requires ContactIdsBelow(rows, next)
    requires i < |rows| && j < |rows| && rows[i].id == rows[j].id
    ensures i == j
  {
  }

  /** Appending a row that takes the counter's value keeps the ids ordered
      under the advanced counter. */
  lemma {:induction false} AppendContact(rows: seq<ContactSubmission>, next: nat, row: ContactSubmission)
    requires ContactIdsBelow(rows, next) && FirstId <= next && row.id == next
    ensures ContactIdsBelow(rows + [row], next + 1)
  {
    var rows' := rows + [row];
    forall i, j | 0 <= i < j < |rows'| ensures rows'[i].id < rows'[j].id {
      if j == |rows| {
        assert rows'[i] == rows[i];
      }
    }
  }

  lemma {:induction false} AppendAppointment(rows: seq<Appointment>, next: nat, row: Appointment)
    requires AppointmentIdsBelow(rows, next) && FirstId <= next && row.id == next
    ensures AppointmentIdsBelow(rows + [row], next + 1)
  {
    var rows' := rows + [row];
    forall i, j | 0 <= i < j < |rows'| ensures rows'[i].id < rows'[j].id {
      if j == |rows| {
        assert rows'[i] == rows[i];
      }
    }
  }

  class Storage {
    var contacts: seq<ContactSubmission>
    var appointments: seq<Appointment>
    /** The serial counters of the two tables. */
    var nextContactId: nat
    var nextAppointmentId: nat

    ghost predicate Valid()
      reads this
    {
      FirstId <= nextContactId && FirstId <= nextAppointmentId &&
      ContactIdsBelow(contacts, nextContactId) &&
      AppointmentIdsBelow(appointments, nextAppointmentId)
    }

    constructor ()
      ensures Valid()
      ensures contacts == [] && appointments == []
      ensures nextContactId == FirstId && nextAppointmentId == FirstId
    {
      contacts, appointments := [], [];
      nextContactId, nextAppointmentId := FirstId, FirstId;
    }

    /** `createContactSubmission`: insert one row and return it. */
    method CreateContactSubmission(data: ContactInput, fails: bool) returns (r: Option<ContactSubmission>)
      requires Valid()
      modifies this
      ensures Valid()
      ensures fails ==> r == None && unchanged(this)
      ensures !fails ==> r == Some(ContactSubmission(old(nextContactId), data, data.urgent.Coalesce(false)))
      ensures !fails ==> contacts == old(contacts) + [r.value] && nextContactId == old(nextContactId) + 1
      ensures appointments == old(appointments) && nextAppointmentId == old(nextAppointmentId)
    {
      if fails {
        return None;
      }
      var row := ContactSubmission(nextContactId, data, data.urgent.Coalesce(false));
      AppendContact(contacts, nextContactId, row);
      contacts := contacts + [row];
      nextContactId := nextContactId + 1;
      r := Some(row);
    }

    /** `createAppointment`: insert one row with status "pending". */
    method CreateAppointment(data: AppointmentInput, fails: bool) returns (r: Option<Appointment>)
      requires Valid()
      modifies this
      ensures Valid()
      ensures fails ==> r == None && unchanged(this)
      ensures !fails ==> r == Some(Appointment(old(nextAppointmentId), data, DefaultStatus))
      ensures !fails ==> appointments == old(appointments) + [r.value] && nextAppointmentId == old(nextAppointmentId) + 1
      ensures contacts == old(contacts) && nextContactId == old(nextContactId)
    {
      if fails {
        return None;
      }
      var row := Appointment(nextAppointmentId, data, DefaultStatus);
      AppendAppointment(appointments, nextAppointmentId, row);
      appointments := appointments + [row];
      nextAppointmentId := nextAppointmentId + 1;
      r := Some(row);
    }

    /** `getContactSubmissions`: every stored row, each once; the query has
        no ORDER BY, so the order of the rows is not promised. */
    method GetContactSubmissions() returns (rows: seq<ContactSubmission>)
      requires Valid()
      ensures multiset(rows) == multiset(contacts)
    {
      rows := contacts;
    }

    /** `getAppointments`: every stored row, each once, in no promised order. */
    method GetAppointments() returns (rows: seq<Appointment>)
      requires Valid()
      ensures multiset(rows) == multiset(appointments)
    {
      rows := appointments;
    }
  }
}
