/** The appointment lifecycle as a sequence of requests against one store. */
module Lifecycle {
  import opened Wrappers
  import opened Text
  import opened Dates
  import opened Schema
  import opened Booking
  import opened Arrival
  import opened Consultation
  import opened Pharmacy
  import opened Accounts
  import opened Delivery

  /** One state-changing request, with everything the handler reads besides the
      store: the caller's role, the clock and the fresh ids. */
  datatype Action =
    | BookVisit(route: Route, caller: Option<Role>, req: BookingRequest, clock: Clock,
                newPatientId: PatientId, newAppointmentId: AppointmentId)
    | CheckInVisit(caller: Option<Role>, id: AppointmentId, status: string, clock: Clock)
    | RecordDiagnosis(caller: Option<Role>, id: AppointmentId, form: DiagnosisForm)
    | PrepareMedicines(caller: Option<Role>, id: AppointmentId)
    | SaveBilling(caller: Option<Role>, id: AppointmentId, billing: BillingForm)
    | HandOverMedicines(caller: Option<Role>, id: AppointmentId)
    | MarkCouriered(caller: Option<Role>, id: AppointmentId)
    | Checkout(caller: Option<Role>, id: AppointmentId)
    | CheckoutCorrected(caller: Option<Role>, id: AppointmentId)

  /** Serve one request. `Checkout` is `complete_checkout` as written;
      `CheckoutCorrected` is the intended one, which reads a NULL amount paid as
      nothing paid. */
  function Step(s: Store, a: Action): Response
    requires MobilesUnique(s.patients)
  {
    match a
    case BookVisit(route, caller, req, clock, newPatientId, newAppointmentId) =>
      Book(s, route, caller, req, clock, newPatientId, newAppointmentId)
    case CheckInVisit(caller, id, status, clock) => CheckIn(s, caller, id, status, clock)
    case RecordDiagnosis(caller, id, form) => SaveDiagnosis(s, caller, id, form)
    case PrepareMedicines(caller, id) => PrepareMedicine(s, caller, id)
    case SaveBilling(caller, id, form) => BillingPrepare(s, caller, id, form)
    case HandOverMedicines(caller, id) => HandOver(s, caller, id)
    case MarkCouriered(caller, id) => CourierDone(s, caller, id)
    case Checkout(caller, id) => CompleteCheckout(s, caller, id)
    case CheckoutCorrected(caller, id) => CompleteCheckoutIntended(s, caller, id)
  }

  /** The front-desk and consulting-room requests keep the invariants. */
  lemma FrontStepKeepsInvariants(s: Store, a: Action)
    requires MobilesUnique(s.patients)
    requires a.BookVisit? || a.CheckInVisit? || a.RecordDiagnosis? || a.PrepareMedicines?
    ensures Grows(s, Step(s, a).store)
    ensures MobilesUnique(Step(s, a).store.patients)
    ensures Valid(s) ==> Valid(Step(s, a).store)
  {
    match a
    case BookVisit(route, caller, req, clock, newPatientId, newAppointmentId) =>
      BookKeepsInvariants(s, route, caller, req, clock, newPatientId, newAppointmentId);
    case CheckInVisit(caller, id, status, clock) =>
      CheckInKeepsInvariants(s, caller, id, status, clock);
    case RecordDiagnosis(caller, id, form) =>
      SaveDiagnosisKeepsInvariants(s, caller, id, form);
    case PrepareMedicines(caller, id) =>
      PrepareKeepsInvariants(s, caller, id);
  }

  /** The billing and delivery requests, both checkouts included, keep the invariants. */
  lemma BackStepKeepsInvariants(s: Store, a: Action)
    requires MobilesUnique(s.patients)
    requires !(a.BookVisit? || a.CheckInVisit? || a.RecordDiagnosis? || a.PrepareMedicines?)
    ensures Grows(s, Step(s, a).store)
    ensures MobilesUnique(Step(s, a).store.patients)
    ensures Valid(s) ==> Valid(Step(s, a).store)
  {
    match a
    case SaveBilling(caller, id, form) =>
      BillingPrepareKeepsInvariants(s, caller, id, form);
    case HandOverMedicines(caller, id) =>
      HandOverKeepsInvariants(s, caller, id);
    case MarkCouriered(caller, id) =>
      CourierDoneKeepsInvariants(s, caller, id);
    case Checkout(caller, id) =>
      CompleteCheckoutKeepsInvariants(s, caller, id);
    case CheckoutCorrected(caller, id) =>
      CompleteCheckoutIntendedKeepsInvariants(s, caller, id);
  }

  /** Every request, refused or not, only adds to the store, keeps mobile numbers
      unique and keeps a consistent store consistent. */
  lemma StepKeepsInvariants(s: Store, a: Action)
    requires MobilesUnique(s.patients)
    ensures Grows(s, Step(s, a).store)
    ensures MobilesUnique(Step(s, a).store.patients)
    ensures Valid(s) ==> Valid(Step(s, a).store)
  {
    if a.BookVisit? || a.CheckInVisit? || a.RecordDiagnosis? || a.PrepareMedicines? {
      FrontStepKeepsInvariants(s, a);
    } else {
      BackStepKeepsInvariants(s, a);
    }
  }

  /** Only saving a diagnosis writes the diagnoses table, so every request keeps
      each stored prescribed flag derived from its medicines text. */
  lemma StepKeepsDerived(s: Store, a: Action)
    requires MobilesUnique(s.patients)
    ensures DiagnosesDerived(s.diagnoses) ==> DiagnosesDerived(Step(s, a).store.diagnoses)
  {
    match a
    case RecordDiagnosis(caller, id, form) =>
      if DiagnosesDerived(s.diagnoses) {
        SaveDiagnosisKeepsDerived(s, caller, id, form);
      }
    case _ =>
      assert Step(s, a).store.diagnoses == s.diagnoses;
  }

  /** Serve the requests in order; a refused request leaves the store as it was
      and the next one carries on. The result is the final store and every
      output in order. No row is ever lost and no progress flag ever cleared. */
  function Run(s: Store, actions: seq<Action>): (r: (Store, seq<Output>))
    requires MobilesUnique(s.patients)
    ensures Grows(s, r.0)
    ensures MobilesUnique(r.0.patients)
    ensures Valid(s) ==> Valid(r.0)
    ensures DiagnosesDerived(s.diagnoses) ==> DiagnosesDerived(r.0.diagnoses)
    decreases |actions|
  {
    if actions == [] then
      GrowsReflexive(s);
      (s, [])
    else
      var first := Step(s, actions[0]);
      StepKeepsInvariants(s, actions[0]);
      StepKeepsDerived(s, actions[0]);
      var rest := Run(first.store, actions[1..]);
      GrowsTransitive(s, first.store, rest.0);
      (rest.0, first.sent + rest.1)
  }

  /** Every store the lifecycle reaches from the empty one is consistent, and
      every diagnosis in it is marked prescribed exactly when its medicines text
      has a visible character. */
  lemma RunFromEmptyValid(actions: seq<Action>)
    ensures Valid(Run(EmptyStore, actions).0)
    ensures DiagnosesDerived(Run(EmptyStore, actions).0.diagnoses)
  {
    EmptyStoreValid();
  }

  /** Checkout's total due is the billing screen's figures: the three charges less
      the discount, each as `get_billing` shows it. */
  lemma TotalDueMatchesBillingScreen(b: Billing)
    ensures var v := ReadRow(b);
      TotalDue(b) == v.consultationCharge + v.medicineCharge + v.courierCharge - v.discount
  {
  }

  /** Once the billing form is saved, checkout's total due is the three charges
      entered less the discount entered, a null or zero amount counting as 0. */
  lemma TotalDueAfterBillingSaved(s: Store, id: AppointmentId, form: BillingForm)
    ensures var row := BillingPrepare(s, Some(Receptionist), id, form).store.billing[id];
      && row.amountPaid == Some(form.amountPaid.GetOr(0.0))
      && TotalDue(row) == form.consultationCharge.GetOr(0.0) + form.medicineCharge.GetOr(0.0)
                          + form.courierCharge.GetOr(0.0) - form.discount.GetOr(0.0)
  {
  }

  /** A billing row the billing form never saved, handed over: the checkout as
      written fails with a TypeError and stores nothing; the intended checkout
      completes it with nothing owed, since the placeholder's charges are zero. */
  lemma UnsavedBillingCheckout(s: Store, id: AppointmentId)
    requires id in s.billing && s.billing[id] == Placeholder.(progress := Progress(Some(true), Some(true), None, None))
    requires MobileOf(s, id).Some?
    ensures CompleteCheckout(s, Some(Receptionist), id) == Reject(s, ServerError(NullAmountPaid))
    ensures var r := CompleteCheckoutIntended(s, Some(Receptionist), id);
      && r.status.Ok? && r.sent == [WhatsApp(MobileOf(s, id).value, CheckoutNotice)]
      && r.store.billing[id].progress == Progress(Some(true), Some(true), None, Some(true))
  {
    assert TotalDue(s.billing[id]) == 0.0;
  }

  /** A whole visit: book (any route, not self-service, so not
      refused for today), check in, save a diagnosis that prescribes, prepare,
      hand over, check out. Every step up to hand-over goes through, but the
      billing form was never saved, so the amount paid is still NULL and the
      checkout as written fails with nothing stored; the intended checkout
      completes the visit. */
  lemma EndToEndVisit(s: Store, route: Route, req: BookingRequest, clock: Clock,
                      patientId: PatientId, id: AppointmentId, status: string, later: Clock,
                      form: DiagnosisForm)
    requires Valid(s)
    requires req.bookingType == ManualInClinic && ParseDate(req.appointmentDate).Some?
    requires patientId !in s.patients && id !in s.appointments && id !in s.billing
    requires HasVisible(form.medicines)
    ensures var r1 := Book(s, route, Some(Receptionist), req, clock, patientId, id);
      var r2 := CheckIn(r1.store, Some(Receptionist), id, status, later);
      var r3 := SaveDiagnosis(r2.store, Some(Doctor), id, form);
      var r4 := PrepareMedicine(r3.store, Some(Pharmacist), id);
      var r5 := HandOver(r4.store, Some(Receptionist), id);
      var r6 := CompleteCheckoutIntended(r5.store, Some(Receptionist), id);
      && r1.status.Ok? && r2.status.Ok? && r3.status.Ok? && r4.status.Ok? && r5.status.Ok?
      && CompleteCheckout(r5.store, Some(Receptionist), id) == Reject(r5.store, ServerError(NullAmountPaid))
      && r6.status.Ok? && r6.sent == [WhatsApp(req.mobile, CheckoutNotice)]
      && r6.store.billing[id].progress == Progress(Some(true), Some(true), None, Some(true))
  {
    var r1 := Book(s, route, Some(Receptionist), req, clock, patientId, id);
    assert Refusal(s, Some(Receptionist), req, clock, patientId, id).None?;
    BookKeepsInvariants(s, route, Some(Receptionist), req, clock, patientId, id);
    var s1 := r1.store;
    assert id in s1.appointments && MobileOf(s1, id) == Some(req.mobile);
    assert id !in s1.billing || s1.billing[id] == Placeholder;

    var r2 := CheckIn(s1, Some(Receptionist), id, status, later);
    CheckInKeepsInvariants(s1, Some(Receptionist), id, status, later);
    var s2 := r2.store;
    assert MobileOf(s2, id) == Some(req.mobile);
    assert s2.billing == s1.billing;

    var r3 := SaveDiagnosis(s2, Some(Doctor), id, form);
    SaveDiagnosisKeepsInvariants(s2, Some(Doctor), id, form);
    var s3 := r3.store;
    assert MobileOf(s3, id) == Some(req.mobile);
    assert s3.billing[id] == Placeholder;

    var r4 := PrepareMedicine(s3, Some(Pharmacist), id);
    PrepareKeepsInvariants(s3, Some(Pharmacist), id);
    var s4 := r4.store;
    assert s4.billing[id] == Placeholder.(progress := Progress(Some(true), None, None, None));

    var s5 := HandOver(s4, Some(Receptionist), id).store;
    assert s5.billing[id] == Placeholder.(progress := Progress(Some(true), Some(true), None, None));
    assert MobileOf(s5, id) == Some(req.mobile);
    UnsavedBillingCheckout(s5, id);
  }
}
