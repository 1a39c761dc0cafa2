/** The clinic's four tables as maps from their primary keys to rows, the
    placeholder billing row, and the shape of a handler's answer. */
module Schema {
  import opened Wrappers

  type PatientId = string
  type AppointmentId = string

  /** The three fixed accounts. A request without a session has no role. */
  datatype Role = Receptionist | Doctor | Pharmacist

  /** A `patients` row. The mobile number is unique across the table. */
  datatype Patient = Patient(name: string, mobile: string, age: string, address: string)

  /** An `appointments` row. */
  datatype Appointment = Appointment(
    patientId: PatientId,
    reason: string,
    bookingDate: string,
    appointmentDate: string,
    bookingType: string,
    confirmed: bool,
    checkinStatus: string,
    checkinTime: string)

  /** A `diagnoses` row, keyed by its appointment. */
  datatype Diagnosis = Diagnosis(
    chiefComplaints: string,
    symptoms: string,
    mind: string,
    psychology: string,
    diagnosis: string,
    medicines: string,
    tests: string,
    nextVisit: string,
    saved: bool,
    prescribed: bool)

  /** The four progress flags of a billing row. Each column may be NULL. */
  datatype Progress = Progress(
    prepared: Option<bool>,
    handedOver: Option<bool>,
    couriered: Option<bool>,
    checkoutDone: Option<bool>)

  /** A `billing` row, keyed by its appointment: eleven data columns and the
      progress flags. Every column may be NULL. */
  datatype Billing = Billing(
    consultationCharge: Option<real>,
    medicineCharge: Option<real>,
    courierCharge: Option<real>,
    deliveryType: Option<string>,
    deliveredTo: Option<string>,
    courierChannel: Option<string>,
    courierTracking: Option<string>,
    amountPaid: Option<real>,
    paymentDate: Option<string>,
    paymentId: Option<string>,
    discount: Option<real>,
    progress: Progress)

  datatype Store = Store(
    patients: map<PatientId, Patient>,
    appointments: map<AppointmentId, Appointment>,
    diagnoses: map<AppointmentId, Diagnosis>,
    billing: map<AppointmentId, Billing>)

  const EmptyStore := Store(map[], map[], map[], map[])

  const InPerson := "In-Person"
  const Courier := "Courier"

  /** The row `INSERT OR IGNORE INTO billing` writes: three zero charges, in-person
      delivery and "not prepared"; every other column is left NULL. */
  const Placeholder := Billing(
    Some(0.0), Some(0.0), Some(0.0), Some(InPerson),
    None, None, None, None, None, None, None,
    Progress(Some(false), None, None, None))

  /** A flag column that reads as true: 1, not 0 and not NULL. */
  predicate IsSet(flag: Option<bool>) {
    flag == Some(true)
  }

  /** `INSERT OR IGNORE` of the placeholder: a missing row is created, an existing one is kept. */
  function EnsureBilling(rows: map<AppointmentId, Billing>, id: AppointmentId): (r: map<AppointmentId, Billing>)
    ensures id in r && (id !in rows ==> r[id] == Placeholder)
    ensures forall k :: k in r <==> k in rows || k == id
    ensures forall k :: k in rows ==> r[k] == rows[k]
    ensures BillingGrows(rows, r)
  {
    if id in rows then rows else rows[id := Placeholder]
  }

  /** The row the billing handlers work on after `INSERT OR IGNORE`: the stored one,
      or the placeholder when there is none. */
  function BillingRow(rows: map<AppointmentId, Billing>, id: AppointmentId): (b: Billing)
    ensures b == EnsureBilling(rows, id)[id]
  {
    if id in rows then rows[id] else Placeholder
  }

  /** `m'` is `m` with the row under `id` written (inserted or replaced) and no
      other row touched. */
  ghost predicate OnlyRowWritten<V>(m: map<AppointmentId, V>, m': map<AppointmentId, V>, id: AppointmentId) {
    && id in m'
    && (forall a :: a in m' <==> a in m || a == id)
    && (forall a :: a in m && a != id ==> m'[a] == m[a])
  }

  /** `m` with the row under `id` set to `v`, inserted or replaced. */
  function WriteRow<V>(m: map<AppointmentId, V>, id: AppointmentId, v: V): (m': map<AppointmentId, V>)
    ensures OnlyRowWritten(m, m', id) && m'[id] == v
  {
    m[id := v]
  }

  /** The patient's mobile number reached by joining the appointment to its patient;
      None when either row is missing (the source then indexes `None` and fails). */
  function MobileOf(s: Store, id: AppointmentId): (r: Option<string>)
    ensures r.Some? <==> id in s.appointments && s.appointments[id].patientId in s.patients
    ensures r.Some? ==> r.value == s.patients[s.appointments[id].patientId].mobile
  {
    if id in s.appointments && s.appointments[id].patientId in s.patients then
      Some(s.patients[s.appointments[id].patientId].mobile)
    else None
  }

  // ---------------------------------------------------------------------------
  // Handler answers
  // ---------------------------------------------------------------------------

  /** Something a handler emits: a WhatsApp notice, or the checkout's printed
      outstanding-credit line. */
  datatype Output = WhatsApp(mobile: string, text: string) | CreditDue(appointment: AppointmentId, amount: real)

  /** The Python exception a handler dies of (an HTTP 500). */
  datatype Crash =
    | MalformedDate            // strptime raises ValueError
    | DuplicateKey             // INSERT hits an existing primary key
    | NoPatientForAppointment  // fetchone() is None and is indexed
    | NullAmountPaid           // None < number raises TypeError

  datatype Error =
    | Unauthorized
    | NotFound(message: string)
    | PreconditionFailed(message: string)
    | ValidationFailed(message: string)
    | ServerError(cause: Crash)

  datatype Status = Ok | Failed(error: Error)

  /** The committed store, the outputs emitted, and how the request ended. */
  datatype Response = Response(store: Store, sent: seq<Output>, status: Status)

  /** A request that ends before its commit: nothing is stored, nothing is sent. */
  function Reject(s: Store, e: Error): (r: Response)
    ensures r.store == s && r.sent == [] && r.status.Failed?
  {
    Response(s, [], Failed(e))
  }

  // ---------------------------------------------------------------------------
  // Consistency of the store
  // ---------------------------------------------------------------------------

  /** The UNIQUE constraint on `patients.mobile_number`. */
  ghost predicate MobilesUnique(ps: map<PatientId, Patient>) {
    forall a, b :: a in ps && b in ps && ps[a].mobile == ps[b].mobile ==> a == b
  }

  /** Every appointment belongs to a registered patient. */
  ghost predicate Linked(appts: map<AppointmentId, Appointment>, ps: map<PatientId, Patient>) {
    forall id :: id in appts ==> appts[id].patientId in ps
  }

  /** The billing flags were raised in the workflow's order. */
  predicate StagesInOrder(p: Progress) {
    && (IsSet(p.handedOver) ==> IsSet(p.prepared))
    && (IsSet(p.couriered) ==> IsSet(p.prepared))
    && (IsSet(p.checkoutDone) ==> IsSet(p.handedOver) || IsSet(p.couriered))
  }

  /** Every billing row has its flags in order, and medicines were only prepared
      for booked appointments. */
  ghost predicate BillingConsistent(rows: map<AppointmentId, Billing>, appts: map<AppointmentId, Appointment>) {
    forall id :: id in rows ==> StagesInOrder(rows[id].progress) && (IsSet(rows[id].progress.prepared) ==> id in appts)
  }

  /** What every reachable store satisfies: unique mobiles, appointments that
      point at patients, and billing flags raised in order and only for booked
      appointments. */
  ghost predicate Valid(s: Store) {
    && MobilesUnique(s.patients)
    && Linked(s.appointments, s.patients)
    && BillingConsistent(s.billing, s.appointments)
  }

  /** Flags set in `p` are still set in `p'`. */
  predicate FlagsKept(p: Progress, p': Progress) {
    && (IsSet(p.prepared) ==> IsSet(p'.prepared))
    && (IsSet(p.handedOver) ==> IsSet(p'.handedOver))
    && (IsSet(p.couriered) ==> IsSet(p'.couriered))
    && (IsSet(p.checkoutDone) ==> IsSet(p'.checkoutDone))
  }

  /** No patient disappears or changes mobile number. */
  ghost predicate PatientsGrow(ps: map<PatientId, Patient>, ps': map<PatientId, Patient>) {
    forall p :: p in ps ==> p in ps' && ps'[p].mobile == ps[p].mobile
  }

  /** No appointment disappears or changes patient. */
  ghost predicate AppointmentsGrow(appts: map<AppointmentId, Appointment>, appts': map<AppointmentId, Appointment>) {
    forall a :: a in appts ==> a in appts' && appts'[a].patientId == appts[a].patientId
  }

  /** No diagnosis row disappears. */
  ghost predicate DiagnosesGrow(ds: map<AppointmentId, Diagnosis>, ds': map<AppointmentId, Diagnosis>) {
    forall a :: a in ds ==> a in ds'
  }

  /** No billing row disappears or has a flag cleared. */
  ghost predicate BillingGrows(rows: map<AppointmentId, Billing>, rows': map<AppointmentId, Billing>) {
    forall a :: a in rows ==> a in rows' && FlagsKept(rows[a].progress, rows'[a].progress)
  }

  /** `s'` only adds to `s`: no row disappears, a patient keeps its mobile number,
      an appointment keeps its patient, and no billing flag is cleared. */
  ghost predicate Grows(s: Store, s': Store) {
    && PatientsGrow(s.patients, s'.patients)
    && AppointmentsGrow(s.appointments, s'.appointments)
    && DiagnosesGrow(s.diagnoses, s'.diagnoses)
    && BillingGrows(s.billing, s'.billing)
  }

  /** Writing one billing row that keeps the flags of the row it replaces keeps
      every flag of the table. */
  lemma WriteBillingGrows(rows: map<AppointmentId, Billing>, id: AppointmentId, b: Billing)
    requires id in rows ==> FlagsKept(rows[id].progress, b.progress)
    ensures BillingGrows(rows, WriteRow(rows, id, b))
  {
  }

  /** Writing one billing row whose flags are in order, and which is prepared only
      for a booked appointment, keeps the table consistent. */
  lemma WriteBillingConsistent(rows: map<AppointmentId, Billing>, appts: map<AppointmentId, Appointment>,
                               id: AppointmentId, b: Billing)
    requires BillingConsistent(rows, appts)
    requires StagesInOrder(b.progress) && (IsSet(b.progress.prepared) ==> id in appts)
    ensures BillingConsistent(WriteRow(rows, id, b), appts)
  {
  }

  lemma GrowsReflexive(s: Store)
    ensures Grows(s, s)
  {
  }

  lemma GrowsTransitive(s1: Store, s2: Store, s3: Store)
    requires Grows(s1, s2) && Grows(s2, s3)
    ensures Grows(s1, s3)
  {
  }

  lemma EmptyStoreValid()
    ensures Valid(EmptyStore)
  {
  }
}
