/** The user's appointments page: booking through the dialog, cancelling,
    the search by dermatologist and the status display. */
module UserAppointment {
  import opened Common
  import opened Text
  import opened Types
  import opened Search

  /** The body sent to `createAppointment`. */
  datatype AppointmentRequest = AppointmentRequest(dermatologistId: string, date: string, notes: string)

  const Cancelled: string := "CANCELLED"
  const Confirmed: string := "CONFIRMED"

  datatype StatusStyle = Green | Red | Yellow

  /** The status badge's colour. */
  function StatusClass(status: string): (c: StatusStyle)
    ensures c == Green <==> status == Confirmed
    ensures c == Red <==> status == Cancelled
  {
    if status == Confirmed then Green else if status == Cancelled then Red else Yellow
  }

  /** The Cancel button is offered unless the appointment is cancelled. */
  predicate ShowsCancel(a: Appointment) {
    a.status != Cancelled
  }

  /** Exactly the red rows have no Cancel button. */
  lemma CancelHiddenIffRed(a: Appointment)
    ensures !ShowsCancel(a) <==> StatusClass(a.status) == Red
  {
  }

  /** `appointment.notes || "No notes"`. */
  function NotesText(a: Appointment): (r: string)
    ensures r == "No notes" || (a.notes.Some? && r == a.notes.value)
    ensures a.notes.Some? && a.notes.value != "" ==> r == a.notes.value
    ensures a.notes.None? || a.notes.value == "" ==> r == "No notes"
  {
    if a.notes.Some? && a.notes.value != "" then a.notes.value else "No notes"
  }

  function DermatologistName(a: Appointment): string { a.dermatologist.name }

  class Page {
    var appointments: seq<Appointment>
    var dermatologists: seq<User>
    var searchTerm: string
    var isDialogOpen: bool
    var selectedDermatologist: string
    var selectedDate: string
    var notes: string
    /** The requests sent to `createAppointment`, in order. */
    var created: seq<AppointmentRequest>
    /** The ids sent to `deleteAppointment`, in order. */
    var cancelled: seq<string>
    /** How many times `fetchAppointments` has been started. */
    var fetches: nat

    constructor()
      ensures appointments == [] && dermatologists == [] && searchTerm == "" && !isDialogOpen
      ensures selectedDermatologist == "" && selectedDate == "" && notes == ""
      ensures created == [] && cancelled == [] && fetches == 0
    {
      appointments := [];
      dermatologists := [];
      searchTerm := "";
      isDialogOpen := false;
      selectedDermatologist := "";
      selectedDate := "";
      notes := "";
      created := [];
      cancelled := [];
      fetches := 0;
    }

    /** `filteredAppointments`: the dermatologist's name contains the term. */
    function Filtered(): (r: seq<Appointment>)
      reads this
      ensures forall a :: a in r <==> a in appointments && Includes(a.dermatologist.name, searchTerm)
      ensures IsSubsequence(r, appointments)
    {
      SearchOne(appointments, DermatologistName, searchTerm)
    }

    /** `handleCreateAppointment`: `ok` is whether the call resolved. Without
        a dermatologist or a date nothing is sent. */
    method CreateAppointment(ok: bool)
      modifies this
      ensures old(selectedDermatologist) == "" || old(selectedDate) == "" ==>
        created == old(created) && isDialogOpen == old(isDialogOpen) && fetches == old(fetches)
        && selectedDermatologist == old(selectedDermatologist) && selectedDate == old(selectedDate) && notes == old(notes)
      ensures old(selectedDermatologist) != "" && old(selectedDate) != "" ==>
        created == old(created) + [AppointmentRequest(old(selectedDermatologist), old(selectedDate), old(notes))]
      ensures old(selectedDermatologist) != "" && old(selectedDate) != "" && ok ==>
        !isDialogOpen && selectedDermatologist == "" && selectedDate == "" && notes == "" && fetches == old(fetches) + 1
      ensures old(selectedDermatologist) != "" && old(selectedDate) != "" && !ok ==>
        isDialogOpen == old(isDialogOpen) && selectedDermatologist == old(selectedDermatologist)
        && selectedDate == old(selectedDate) && notes == old(notes) && fetches == old(fetches)
      ensures appointments == old(appointments) && cancelled == old(cancelled) && searchTerm == old(searchTerm)
      ensures dermatologists == old(dermatologists)
    {
      if selectedDermatologist == "" || selectedDate == "" {
        return;
      }
      created := created + [AppointmentRequest(selectedDermatologist, selectedDate, notes)];
      if ok {
        isDialogOpen := false;
        selectedDermatologist := "";
        selectedDate := "";
        notes := "";
        fetches := fetches + 1;
      }
    }

    /** The dialog's `onOpenChange`: the trigger button opens it, dismissing closes it;
        the selections typed so far are kept either way. */
    method DialogChange(open: bool)
      modifies this
      ensures isDialogOpen == open
      ensures appointments == old(appointments) && dermatologists == old(dermatologists) && searchTerm == old(searchTerm)
      ensures selectedDermatologist == old(selectedDermatologist) && selectedDate == old(selectedDate) && notes == old(notes)
      ensures created == old(created) && cancelled == old(cancelled) && fetches == old(fetches)
    {
      isDialogOpen := open;
    }

    /** `handleCancelAppointment(id)`: the list changes only through the refetch. */
    method CancelAppointment(id: string, ok: bool)
      modifies this
      ensures cancelled == old(cancelled) + [id]
      ensures fetches == old(fetches) + (if ok then 1 else 0)
      ensures appointments == old(appointments) && created == old(created) && isDialogOpen == old(isDialogOpen)
      ensures dermatologists == old(dermatologists) && searchTerm == old(searchTerm)
      ensures selectedDermatologist == old(selectedDermatologist) && selectedDate == old(selectedDate) && notes == old(notes)
    {
      cancelled := cancelled + [id];
      if ok {
        fetches := fetches + 1;
      }
    }

    /** `fetchAppointments`. */
    method FetchAppointments(outcome: Result<seq<Appointment>>)
      modifies this
      ensures appointments == (if outcome.Ok? then outcome.value else old(appointments))
      ensures created == old(created) && cancelled == old(cancelled) && isDialogOpen == old(isDialogOpen)
      ensures selectedDermatologist == old(selectedDermatologist) && selectedDate == old(selectedDate) && notes == old(notes)
      ensures fetches == old(fetches)
      ensures dermatologists == old(dermatologists) && searchTerm == old(searchTerm)
    {
      if outcome.Ok? {
        appointments := outcome.value;
      }
    }

    /** `fetchDermatologists`: the choices of the dialog's select. */
    method FetchDermatologists(outcome: Result<seq<User>>)
      modifies this
      ensures dermatologists == (if outcome.Ok? then outcome.value else old(dermatologists))
      ensures appointments == old(appointments) && created == old(created) && cancelled == old(cancelled)
      ensures isDialogOpen == old(isDialogOpen) && selectedDermatologist == old(selectedDermatologist)
      ensures selectedDate == old(selectedDate) && notes == old(notes) && fetches == old(fetches)
      ensures searchTerm == old(searchTerm)
    {
      if outcome.Ok? {
        dermatologists := outcome.value;
      }
    }
  }
}
