/** The dermatologist's appointments page: search by patient and status
    changes that go through the server. */
module DermAppointments {
  import opened Common
  import opened Text
  import opened Types
  import opened Search

  /** The statuses the select offers. */
  const StatusOptions: seq<string> := ["PENDING", "CONFIRMED", "CANCELLED"]

  function PatientName(a: Appointment): string { a.user.name }
  function PatientEmail(a: Appointment): string { a.user.email }

  /** `filteredAppointments`: the patient's name or email contains the term. */
  function Filtered(appointments: seq<Appointment>, term: string): (r: seq<Appointment>)
    ensures forall a :: a in r <==> a in appointments && (Includes(a.user.name, term) || Includes(a.user.email, term))
    ensures IsSubsequence(r, appointments)
    ensures term == "" ==> r == appointments
  {
    SearchBy(appointments, PatientName, PatientEmail, term)
  }

  class Page {
    var appointments: seq<Appointment>
    var searchTerm: string
    /** The `(id, status)` pairs sent to `updateStatus`, in order. */
    var statusUpdates: seq<(string, string)>
    /** How many times `fetchAppointments` has been started. */
    var fetches: nat

    constructor()
      ensures appointments == [] && searchTerm == "" && statusUpdates == [] && fetches == 0
    {
      appointments := [];
      searchTerm := "";
      statusUpdates := [];
      fetches := 0;
    }

    /** `handleStatusChange(id, status)` from a row's select: the server is
        told, then the list is fetched again; nothing is edited locally. */
    method StatusChange(id: string, status: string, ok: bool)
      requires status in StatusOptions
      modifies this
      ensures statusUpdates == old(statusUpdates) + [(id, status)]
      ensures fetches == old(fetches) + (if ok then 1 else 0)
      ensures appointments == old(appointments) && searchTerm == old(searchTerm)
    {
      statusUpdates := statusUpdates + [(id, status)];
      if ok {
        fetches := fetches + 1;
      }
    }

    method FetchAppointments(outcome: Result<seq<Appointment>>)
      modifies this
      ensures appointments == (if outcome.Ok? then outcome.value else old(appointments))
      ensures searchTerm == old(searchTerm) && statusUpdates == old(statusUpdates) && fetches == old(fetches)
    {
      if outcome.Ok? {
        appointments := outcome.value;
      }
    }
  }
}
