/** Front-desk check-in of a booked appointment. */
module Arrival {
  import opened Wrappers
  import opened Dates
  import opened Schema

  const NoSuchAppointment := "Appointment not found"

  /** `check_in`: the receptionist records a free-text status and the clock's time
      stamp on an existing appointment. The UPDATE of an unknown id changes no row
      and the handler then answers NotFound without committing. No notice is sent. */
  function CheckIn(s: Store, caller: Option<Role>, id: AppointmentId, status: string, clock: Clock): (r: Response)
    ensures r.sent == []
    ensures r.status.Ok? <==> caller == Some(Receptionist) && id in s.appointments
    ensures caller != Some(Receptionist) ==> r == Reject(s, Unauthorized)
    ensures caller == Some(Receptionist) && id !in s.appointments ==> r == Reject(s, NotFound(NoSuchAppointment))
    ensures r.status.Ok? ==>
      && r.store == s.(appointments := r.store.appointments)
      && OnlyRowWritten(s.appointments, r.store.appointments, id)
      && r.store.appointments[id].checkinStatus == status
      && r.store.appointments[id].checkinTime == clock.stampText
      // nothing but the two check-in columns differs
      && r.store.appointments[id].(checkinStatus := "", checkinTime := "")
         == s.appointments[id].(checkinStatus := "", checkinTime := "")
  {
    if caller != Some(Receptionist) then Reject(s, Unauthorized)
    else if id !in s.appointments then Reject(s, NotFound(NoSuchAppointment))
    else
      var appt := s.appointments[id].(checkinStatus := status, checkinTime := clock.stampText);
      Response(s.(appointments := s.appointments[id := appt]), [], Ok)
  }

  /** Check-in only adds to the store and keeps it consistent: the appointment
      keeps its patient. */
  lemma CheckInKeepsInvariants(s: Store, caller: Option<Role>, id: AppointmentId, status: string, clock: Clock)
    ensures Grows(s, CheckIn(s, caller, id, status, clock).store)
    ensures Valid(s) ==> Valid(CheckIn(s, caller, id, status, clock).store)
  {
    var s' := CheckIn(s, caller, id, status, clock).store;
    if CheckIn(s, caller, id, status, clock).status.Ok? {
      assert s'.appointments[id].patientId == s.appointments[id].patientId;
      assert AppointmentsGrow(s.appointments, s'.appointments);
      if Valid(s) {
        assert Linked(s'.appointments, s'.patients);
      }
    } else {
      GrowsReflexive(s);
    }
  }

  /** There is no guard against a second check-in: it overwrites the first, and
      the result is as if only the second had happened. */
  lemma CheckInOverwrites(s: Store, id: AppointmentId, status1: string, clock1: Clock, status2: string, clock2: Clock)
    requires id in s.appointments
    ensures var s1 := CheckIn(s, Some(Receptionist), id, status1, clock1).store;
      CheckIn(s1, Some(Receptionist), id, status2, clock2) == CheckIn(s, Some(Receptionist), id, status2, clock2)
  {
    var s1 := CheckIn(s, Some(Receptionist), id, status1, clock1).store;
    assert s1.appointments[id := s1.appointments[id].(checkinStatus := status2, checkinTime := clock2.stampText)]
        == s.appointments[id := s.appointments[id].(checkinStatus := status2, checkinTime := clock2.stampText)];
  }
}
