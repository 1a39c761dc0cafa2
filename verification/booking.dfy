/** Booking a visit: the JSON endpoint and the receptionist dashboard's form. */
module Booking {
  import opened Wrappers
  import opened Dates
  import opened Schema

  /** The two places a booking can come from. Only the JSON endpoint creates the
      placeholder billing row. */
  datatype Route = JsonEndpoint | DashboardForm

  datatype BookingRequest = BookingRequest(
    name: string,
    mobile: string,
    age: string,
    address: string,
    reason: string,
    appointmentDate: string,
    bookingType: string)

  const OnlineDirect := "Online Direct"
  const ManualInClinic := "Manual In-Clinic"
  const SameDayRefusal := "Same-day online bookings not allowed"
  const PendingNotice := "Appointment confirmation pending from clinic"

  /** The patient registered under `mobile`, if any (the column is unique, so there is at most one). */
  function PatientWithMobile(ps: map<PatientId, Patient>, mobile: string): (r: Option<PatientId>)
    requires MobilesUnique(ps)
    ensures r.Some? ==> r.value in ps && ps[r.value].mobile == mobile
    ensures r.None? ==> forall k :: k in ps ==> ps[k].mobile != mobile
  {
    if exists k :: k in ps && ps[k].mobile == mobile then
      var k :| k in ps && ps[k].mobile == mobile;
      Some(k)
    else None
  }

  /** Whether booking `req` can register its patient: a known mobile number, or a
      fresh patient id (an id already taken makes the INSERT fail). */
  predicate CanUpsert(ps: map<PatientId, Patient>, req: BookingRequest, newPatientId: PatientId)
    requires MobilesUnique(ps)
  {
    PatientWithMobile(ps, req.mobile).Some? || newPatientId !in ps
  }

  /** The patient upsert: a known mobile number keeps its id and has name, age and
      address overwritten; an unknown one is inserted under `newPatientId`. Either
      way no other patient changes. */
  function UpsertPatient(ps: map<PatientId, Patient>, req: BookingRequest, newPatientId: PatientId)
    : (r: (PatientId, map<PatientId, Patient>))
    requires MobilesUnique(ps) && CanUpsert(ps, req, newPatientId)
    ensures PatientWithMobile(ps, req.mobile).Some? ==> r.0 == PatientWithMobile(ps, req.mobile).value
    ensures PatientWithMobile(ps, req.mobile).None? ==> r.0 == newPatientId && r.0 !in ps
    ensures r.0 in r.1 && r.1[r.0] == Patient(req.name, req.mobile, req.age, req.address)
    ensures forall p :: p in r.1 <==> p in ps || p == r.0
    ensures forall p :: p in ps && p != r.0 ==> r.1[p] == ps[p]
    ensures PatientsGrow(ps, r.1)
  {
    match PatientWithMobile(ps, req.mobile)
    case Some(pid) => (pid, ps[pid := ps[pid].(name := req.name, age := req.age, address := req.address)])
    case None => (newPatientId, ps[newPatientId := Patient(req.name, req.mobile, req.age, req.address)])
  }

  /** The upsert keeps mobile numbers unique: the row it writes carries the
      request's number, which no other patient has. */
  lemma UpsertKeepsMobilesUnique(ps: map<PatientId, Patient>, req: BookingRequest, newPatientId: PatientId)
    requires MobilesUnique(ps) && CanUpsert(ps, req, newPatientId)
    ensures MobilesUnique(UpsertPatient(ps, req, newPatientId).1)
  {
    var (pid, ps') := UpsertPatient(ps, req, newPatientId);
    forall a, b | a in ps' && b in ps' && ps'[a].mobile == ps'[b].mobile
      ensures a == b
    {
      if a != pid && b != pid {
        assert ps[a].mobile == ps[b].mobile;
      }
    }
  }

  /** The same-day rule: a self-service booking for today is refused. It compares
      the parsed date, so any spelling strptime accepts counts. */
  predicate SameDayDirect(req: BookingRequest, today: Date) {
    ParseDate(req.appointmentDate) == Some(today) && req.bookingType == OnlineDirect
  }

  /** The WhatsApp notices of a successful booking: "booked" always, "pending"
      unless the booking was made in the clinic. */
  function BookingNotices(req: BookingRequest): (r: seq<Output>)
    ensures 1 <= |r| <= 2
    ensures r[0] == WhatsApp(req.mobile, "Appointment booked for " + req.appointmentDate)
    ensures |r| == 2 <==> req.bookingType != ManualInClinic
    ensures |r| == 2 ==> r[1] == WhatsApp(req.mobile, PendingNotice)
  {
    [WhatsApp(req.mobile, "Appointment booked for " + req.appointmentDate)]
    + (if req.bookingType != ManualInClinic then [WhatsApp(req.mobile, PendingNotice)] else [])
  }

  /** Why a booking is refused, checked in the order the handler meets the
      failures; None when it goes through. The upsert runs before the date is
      looked at, so a taken patient id fails first; the appointment INSERT runs
      last. */
  function Refusal(s: Store, caller: Option<Role>, req: BookingRequest, clock: Clock,
                   newPatientId: PatientId, newAppointmentId: AppointmentId): (r: Option<Error>)
    requires MobilesUnique(s.patients)
    ensures r.None? <==>
              && caller == Some(Receptionist)
              && CanUpsert(s.patients, req, newPatientId)
              && ParseDate(req.appointmentDate).Some?
              && !SameDayDirect(req, clock.today)
              && newAppointmentId !in s.appointments
    ensures caller != Some(Receptionist) ==> r == Some(Unauthorized)
    ensures caller == Some(Receptionist) && !CanUpsert(s.patients, req, newPatientId)
            ==> r == Some(ServerError(DuplicateKey))
    ensures caller == Some(Receptionist) && CanUpsert(s.patients, req, newPatientId)
            && ParseDate(req.appointmentDate).None?
            ==> r == Some(ServerError(MalformedDate))
    ensures caller == Some(Receptionist) && CanUpsert(s.patients, req, newPatientId)
            && SameDayDirect(req, clock.today)
            ==> r == Some(ValidationFailed(SameDayRefusal))
    ensures caller == Some(Receptionist) && CanUpsert(s.patients, req, newPatientId)
            && ParseDate(req.appointmentDate).Some? && !SameDayDirect(req, clock.today)
            && newAppointmentId in s.appointments
            ==> r == Some(ServerError(DuplicateKey))
  {
    if caller != Some(Receptionist) then Some(Unauthorized)
    else if !CanUpsert(s.patients, req, newPatientId) then Some(ServerError(DuplicateKey))
    else match ParseDate(req.appointmentDate)
      case None => Some(ServerError(MalformedDate))
      case Some(day) =>
        if day == clock.today && req.bookingType == OnlineDirect then Some(ValidationFailed(SameDayRefusal))
        else if newAppointmentId in s.appointments then Some(ServerError(DuplicateKey))
        else None
  }

  /** The committed part of a booking: the upserted patient, one new appointment
      (check-in blank, not confirmed, booked today), the placeholder billing row
      from the JSON endpoint only, and the notices. */
  function Admit(s: Store, route: Route, req: BookingRequest, clock: Clock,
                 newPatientId: PatientId, newAppointmentId: AppointmentId): (r: Response)
    requires MobilesUnique(s.patients) && CanUpsert(s.patients, req, newPatientId)
    requires newAppointmentId !in s.appointments
    ensures r.status == Ok && r.sent == BookingNotices(req)
    ensures r.store.patients == UpsertPatient(s.patients, req, newPatientId).1
    // exactly one new appointment
    ensures forall a :: a in r.store.appointments <==> a in s.appointments || a == newAppointmentId
    ensures forall a :: a in s.appointments ==> r.store.appointments[a] == s.appointments[a]
    ensures newAppointmentId in r.store.appointments &&
            var appt := r.store.appointments[newAppointmentId];
            && appt.patientId == UpsertPatient(s.patients, req, newPatientId).0
            && appt.reason == req.reason && appt.appointmentDate == req.appointmentDate
            && appt.bookingType == req.bookingType && appt.bookingDate == clock.dateText
            && !appt.confirmed && appt.checkinStatus == "" && appt.checkinTime == ""
    // diagnoses untouched; billing placeholder only from the JSON endpoint
    ensures r.store.diagnoses == s.diagnoses
    ensures route == DashboardForm ==> r.store.billing == s.billing
    ensures route == JsonEndpoint ==> r.store.billing == EnsureBilling(s.billing, newAppointmentId)
  {
    var (pid, patients) := UpsertPatient(s.patients, req, newPatientId);
    var appt := Appointment(pid, req.reason, clock.dateText, req.appointmentDate,
                            req.bookingType, false, "", "");
    var billing := if route == JsonEndpoint then EnsureBilling(s.billing, newAppointmentId) else s.billing;
    Response(Store(patients, s.appointments[newAppointmentId := appt], s.diagnoses, billing),
             BookingNotices(req), Ok)
  }

  /** Book an appointment (both routes). A refused booking stores and sends
      nothing, even though the handler had already run the patient upsert: it
      closes the connection without committing. */
  function Book(s: Store, route: Route, caller: Option<Role>, req: BookingRequest, clock: Clock,
                newPatientId: PatientId, newAppointmentId: AppointmentId): (r: Response)
    requires MobilesUnique(s.patients)
    ensures r.status.Failed? ==> r.store == s && r.sent == []
    ensures r.status.Ok? <==> Refusal(s, caller, req, clock, newPatientId, newAppointmentId).None?
    ensures r.status.Failed? ==> r.status.error == Refusal(s, caller, req, clock, newPatientId, newAppointmentId).value
    ensures r.status.Ok? ==> r == Admit(s, route, req, clock, newPatientId, newAppointmentId)
  {
    match Refusal(s, caller, req, clock, newPatientId, newAppointmentId)
    case Some(e) => Reject(s, e)
    case None => Admit(s, route, req, clock, newPatientId, newAppointmentId)
  }

  /** The committed booking only adds to the store. */
  lemma AdmitGrows(s: Store, route: Route, req: BookingRequest, clock: Clock,
                   newPatientId: PatientId, newAppointmentId: AppointmentId)
    requires MobilesUnique(s.patients) && CanUpsert(s.patients, req, newPatientId)
    requires newAppointmentId !in s.appointments
    ensures Grows(s, Admit(s, route, req, clock, newPatientId, newAppointmentId).store)
  {
    var s' := Admit(s, route, req, clock, newPatientId, newAppointmentId).store;
    assert AppointmentsGrow(s.appointments, s'.appointments);
    assert BillingGrows(s.billing, s'.billing);
  }

  /** The committed booking keeps the store consistent: the new appointment
      points at the upserted patient and a placeholder row carries no flags. */
  lemma AdmitKeepsValid(s: Store, route: Route, req: BookingRequest, clock: Clock,
                        newPatientId: PatientId, newAppointmentId: AppointmentId)
    requires Valid(s) && CanUpsert(s.patients, req, newPatientId)
    requires newAppointmentId !in s.appointments
    ensures Valid(Admit(s, route, req, clock, newPatientId, newAppointmentId).store)
  {
    var s' := Admit(s, route, req, clock, newPatientId, newAppointmentId).store;
    UpsertKeepsMobilesUnique(s.patients, req, newPatientId);
    forall id | id in s'.appointments
      ensures s'.appointments[id].patientId in s'.patients
    {
      if id != newAppointmentId {
        assert s'.appointments[id] == s.appointments[id];
      }
    }
    forall id | id in s'.billing
      ensures StagesInOrder(s'.billing[id].progress) && (IsSet(s'.billing[id].progress.prepared) ==> id in s'.appointments)
    {
      if id !in s.billing {
        assert s'.billing[id] == Placeholder;
      } else {
        assert s'.billing[id] == s.billing[id];
      }
    }
  }

  /** Booking only adds to the store and keeps it consistent. */
  lemma BookKeepsInvariants(s: Store, route: Route, caller: Option<Role>, req: BookingRequest, clock: Clock,
                            newPatientId: PatientId, newAppointmentId: AppointmentId)
    requires MobilesUnique(s.patients)
    ensures Grows(s, Book(s, route, caller, req, clock, newPatientId, newAppointmentId).store)
    ensures MobilesUnique(Book(s, route, caller, req, clock, newPatientId, newAppointmentId).store.patients)
    ensures Valid(s) ==> Valid(Book(s, route, caller, req, clock, newPatientId, newAppointmentId).store)
  {
    if Refusal(s, caller, req, clock, newPatientId, newAppointmentId).None? {
      UpsertKeepsMobilesUnique(s.patients, req, newPatientId);
      AdmitGrows(s, route, req, clock, newPatientId, newAppointmentId);
      if Valid(s) {
        AdmitKeepsValid(s, route, req, clock, newPatientId, newAppointmentId);
      }
    } else {
      GrowsReflexive(s);
    }
  }

  /** Re-booking under a known mobile number keeps the patient's identity and
      overwrites the rest; a new mobile number adds exactly one patient. */
  lemma BookUpsertsByMobile(s: Store, route: Route, req: BookingRequest, clock: Clock,
                            newPatientId: PatientId, newAppointmentId: AppointmentId)
    requires MobilesUnique(s.patients)
    requires Book(s, route, Some(Receptionist), req, clock, newPatientId, newAppointmentId).status.Ok?
    ensures var s' := Book(s, route, Some(Receptionist), req, clock, newPatientId, newAppointmentId).store;
      && (forall p :: p in s.patients && s.patients[p].mobile == req.mobile ==>
            && (forall q :: q in s'.patients <==> q in s.patients)
            && s'.patients[p] == Patient(req.name, req.mobile, req.age, req.address)
            && s'.appointments[newAppointmentId].patientId == p)
      && ((forall p :: p in s.patients ==> s.patients[p].mobile != req.mobile) ==>
            && newPatientId !in s.patients
            && (forall q :: q in s'.patients <==> q in s.patients || q == newPatientId)
            && s'.appointments[newAppointmentId].patientId == newPatientId)
  {
  }

  /** A self-service booking dated with the clock's own date string is refused. */
  lemma BookingForTodayRefused(s: Store, route: Route, req: BookingRequest, now: Instant,
                               newPatientId: PatientId, newAppointmentId: AppointmentId)
    requires MobilesUnique(s.patients)
    requires req.appointmentDate == ReadClock(now).dateText && req.bookingType == OnlineDirect
    requires newPatientId !in s.patients
    ensures Book(s, route, Some(Receptionist), req, ReadClock(now), newPatientId, newAppointmentId)
            == Response(s, [], Failed(ValidationFailed(SameDayRefusal)))
  {
  }

  /** Booking is not idempotent: the same request twice gives two appointments. */
  lemma BookTwiceTwoAppointments(s: Store, route: Route, req: BookingRequest, clock: Clock,
                                 p1: PatientId, a1: AppointmentId, p2: PatientId, a2: AppointmentId)
    requires MobilesUnique(s.patients)
    requires Book(s, route, Some(Receptionist), req, clock, p1, a1).status.Ok?
    requires a2 != a1 && a2 !in s.appointments
    ensures var s1 := Book(s, route, Some(Receptionist), req, clock, p1, a1).store;
      var r2 := Book(s1, route, Some(Receptionist), req, clock, p2, a2);
      && r2.status.Ok?
      && (forall a :: a in r2.store.appointments <==> a in s.appointments || a == a1 || a == a2)
      && (forall p :: p in r2.store.patients <==> p in s1.patients)
      && r2.store.appointments[a1].patientId == r2.store.appointments[a2].patientId
  {
    var r1 := Book(s, route, Some(Receptionist), req, clock, p1, a1);
    assert r1 == Admit(s, route, req, clock, p1, a1);
    var s1 := r1.store;
    var pid := s1.appointments[a1].patientId;
    assert PatientWithMobile(s1.patients, req.mobile) == Some(pid);
    assert a2 !in s1.appointments;
    assert Refusal(s1, Some(Receptionist), req, clock, p2, a2).None?;
    var r2 := Book(s1, route, Some(Receptionist), req, clock, p2, a2);
    assert r2 == Admit(s1, route, req, clock, p2, a2);
    assert UpsertPatient(s1.patients, req, p2).0 == pid;
  }
}
