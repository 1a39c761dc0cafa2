/** The end of a visit: handing medicines over or couriering them, and checkout.
    These handlers walk the billing row's progress flags: prepared, then handed
    over or couriered, then checkout done. */
module Delivery {
  import opened Wrappers
  import opened Schema

  const NotPrepared := "Medicines not prepared yet"
  const NotCourier := "Delivery type is not Courier"
  const NotDelivered := "Medicines not handed over or couriered"
  const HandedOverNotice := "Medicines handed over"
  const CourieredNotice := "Medicines couriered"
  const CheckoutNotice := "Checkout completed"

  /** The billing row exists and its prepared flag reads as true. */
  predicate Prepared(s: Store, id: AppointmentId) {
    id in s.billing && IsSet(s.billing[id].progress.prepared)
  }

  /** The billing row exists and says the medicines reached the patient. */
  predicate Delivered(s: Store, id: AppointmentId) {
    id in s.billing && (IsSet(s.billing[id].progress.handedOver) || IsSet(s.billing[id].progress.couriered))
  }

  /** `s` with the progress flags of the existing billing row `id` replaced by `p`. */
  function WithProgress(s: Store, id: AppointmentId, p: Progress): (s': Store)
    requires id in s.billing
    ensures s' == s.(billing := s'.billing)
    ensures OnlyRowWritten(s.billing, s'.billing, id)
    ensures s'.billing[id] == s.billing[id].(progress := p)
  {
    s.(billing := WriteRow(s.billing, id, s.billing[id].(progress := p)))
  }

  /** `hand_over_medicine`: refused unless the medicines were prepared; then the
      handed-over flag is raised, the mobile number looked up (a failure there
      commits nothing), and the notice sent. */
  function HandOver(s: Store, caller: Option<Role>, id: AppointmentId): (r: Response)
    ensures caller != Some(Receptionist) ==> r == Reject(s, Unauthorized)
    ensures caller == Some(Receptionist) && !Prepared(s, id) ==> r == Reject(s, PreconditionFailed(NotPrepared))
    ensures caller == Some(Receptionist) && Prepared(s, id) && MobileOf(s, id).None? ==>
              r == Reject(s, ServerError(NoPatientForAppointment))
    ensures r.status.Ok? <==> caller == Some(Receptionist) && Prepared(s, id) && MobileOf(s, id).Some?
    ensures r.status.Ok? ==>
      && r.store == WithProgress(s, id, s.billing[id].progress.(handedOver := Some(true)))
      && r.sent == [WhatsApp(MobileOf(s, id).value, HandedOverNotice)]
  {
    if caller != Some(Receptionist) then Reject(s, Unauthorized)
    else if !Prepared(s, id) then Reject(s, PreconditionFailed(NotPrepared))
    else match MobileOf(s, id)
      case None => Reject(s, ServerError(NoPatientForAppointment))
      case Some(mobile) =>
        Response(WithProgress(s, id, s.billing[id].progress.(handedOver := Some(true))),
                 [WhatsApp(mobile, HandedOverNotice)], Ok)
  }

  /** `courier_done`: refused unless the medicines were prepared, and then unless
      the delivery type is exactly "Courier" (a NULL type is not); then the
      couriered flag is raised, the mobile number looked up and the notice sent. */
  function CourierDone(s: Store, caller: Option<Role>, id: AppointmentId): (r: Response)
    ensures caller != Some(Receptionist) ==> r == Reject(s, Unauthorized)
    ensures caller == Some(Receptionist) && !Prepared(s, id) ==> r == Reject(s, PreconditionFailed(NotPrepared))
    ensures caller == Some(Receptionist) && Prepared(s, id) && s.billing[id].deliveryType != Some(Courier) ==>
              r == Reject(s, PreconditionFailed(NotCourier))
    ensures (&& caller == Some(Receptionist) && Prepared(s, id) && s.billing[id].deliveryType == Some(Courier)
             && MobileOf(s, id).None?) ==> r == Reject(s, ServerError(NoPatientForAppointment))
    ensures r.status.Ok? <==>
              && caller == Some(Receptionist) && Prepared(s, id)
              && s.billing[id].deliveryType == Some(Courier) && MobileOf(s, id).Some?
    ensures r.status.Ok? ==>
      && r.store == WithProgress(s, id, s.billing[id].progress.(couriered := Some(true)))
      && r.sent == [WhatsApp(MobileOf(s, id).value, CourieredNotice)]
  {
    if caller != Some(Receptionist) then Reject(s, Unauthorized)
    else if !Prepared(s, id) then Reject(s, PreconditionFailed(NotPrepared))
    else if s.billing[id].deliveryType != Some(Courier) then Reject(s, PreconditionFailed(NotCourier))
    else match MobileOf(s, id)
      case None => Reject(s, ServerError(NoPatientForAppointment))
      case Some(mobile) =>
        Response(WithProgress(s, id, s.billing[id].progress.(couriered := Some(true))),
                 [WhatsApp(mobile, CourieredNotice)], Ok)
  }

  /** `total_due`: the three charges less the discount, a NULL column counting as 0.
      A row with no charges and no discount, such as the placeholder, owes nothing;
      a discount lowers the total by exactly its amount. */
  function TotalDue(b: Billing): (r: real)
    ensures (&& b.consultationCharge.GetOr(0.0) == 0.0 && b.medicineCharge.GetOr(0.0) == 0.0
             && b.courierCharge.GetOr(0.0) == 0.0 && b.discount.GetOr(0.0) == 0.0) ==> r == 0.0
    ensures r + b.discount.GetOr(0.0) == TotalCharges(b)
  {
    b.consultationCharge.GetOr(0.0) + b.medicineCharge.GetOr(0.0) + b.courierCharge.GetOr(0.0)
    - b.discount.GetOr(0.0)
  }

  /** The three charges of a row, a NULL charge counting as 0. */
  function TotalCharges(b: Billing): real {
    b.consultationCharge.GetOr(0.0) + b.medicineCharge.GetOr(0.0) + b.courierCharge.GetOr(0.0)
  }

  /** The printed credit line: present exactly when less was paid than is due, and
      then for the difference, which is positive. */
  function CreditLine(id: AppointmentId, due: real, paid: real): (out: seq<Output>)
    ensures |out| <= 1
    ensures out != [] <==> paid < due
    ensures out != [] ==> out[0] == CreditDue(id, due - paid) && out[0].amount > 0.0
  {
    if paid < due then [CreditDue(id, due - paid)] else []
  }

  /** `complete_checkout` as written: refused unless the medicines were handed over
      or couriered (prepared is not checked); then `amount_paid < total_due` is
      evaluated, which raises TypeError when amount_paid is NULL, before anything
      is committed. Otherwise the credit line is printed if something is owed,
      the mobile number looked up (a failure there commits nothing, but the line
      was already printed), the flag committed and the notice sent. */
  function CompleteCheckout(s: Store, caller: Option<Role>, id: AppointmentId): (r: Response)
    ensures caller != Some(Receptionist) ==> r == Reject(s, Unauthorized)
    ensures caller == Some(Receptionist) && !Delivered(s, id) ==> r == Reject(s, PreconditionFailed(NotDelivered))
    ensures caller == Some(Receptionist) && Delivered(s, id) && s.billing[id].amountPaid.None? ==>
              r == Reject(s, ServerError(NullAmountPaid))
    ensures r.status.Ok? <==>
              && caller == Some(Receptionist) && Delivered(s, id)
              && s.billing[id].amountPaid.Some? && MobileOf(s, id).Some?
    ensures r.status.Failed? ==> r.store == s
    ensures (&& caller == Some(Receptionist) && Delivered(s, id)
             && s.billing[id].amountPaid.Some? && MobileOf(s, id).None?)
            ==> r.status == Failed(ServerError(NoPatientForAppointment))
    ensures caller == Some(Receptionist) && Delivered(s, id) && s.billing[id].amountPaid.Some? ==>
              var credit := CreditLine(id, TotalDue(s.billing[id]), s.billing[id].amountPaid.value);
              && (MobileOf(s, id).None? ==> r.sent == credit)
              && (MobileOf(s, id).Some? ==> r.sent == credit + [WhatsApp(MobileOf(s, id).value, CheckoutNotice)])
    ensures r.status.Ok? ==>
              r.store == WithProgress(s, id, s.billing[id].progress.(checkoutDone := Some(true)))
  {
    if caller != Some(Receptionist) then Reject(s, Unauthorized)
    else if !Delivered(s, id) then Reject(s, PreconditionFailed(NotDelivered))
    else
      var b := s.billing[id];
      match b.amountPaid
      case None => Reject(s, ServerError(NullAmountPaid))
      case Some(paid) =>
        var credit := CreditLine(id, TotalDue(b), paid);
        match MobileOf(s, id)
        case None => Response(s, credit, Failed(ServerError(NoPatientForAppointment)))
        case Some(mobile) =>
          Response(WithProgress(s, id, b.progress.(checkoutDone := Some(true))),
                   credit + [WhatsApp(mobile, CheckoutNotice)], Ok)
  }

  /** Checkout as the workflow intends it: a NULL amount paid counts as nothing
      paid, so a row the billing form never saved is checked out with the whole
      total due as credit instead of failing. */
  function CompleteCheckoutIntended(s: Store, caller: Option<Role>, id: AppointmentId): (r: Response)
    ensures caller != Some(Receptionist) ==> r == Reject(s, Unauthorized)
    ensures caller == Some(Receptionist) && !Delivered(s, id) ==> r == Reject(s, PreconditionFailed(NotDelivered))
    ensures r.status.Ok? <==> caller == Some(Receptionist) && Delivered(s, id) && MobileOf(s, id).Some?
    ensures r.status.Failed? ==> r.store == s
    ensures caller == Some(Receptionist) && Delivered(s, id) && MobileOf(s, id).None? ==>
              r.status == Failed(ServerError(NoPatientForAppointment))
    ensures r.status.Ok? ==>
              && r.store == WithProgress(s, id, s.billing[id].progress.(checkoutDone := Some(true)))
              && r.sent == CreditLine(id, TotalDue(s.billing[id]), s.billing[id].amountPaid.GetOr(0.0))
                           + [WhatsApp(MobileOf(s, id).value, CheckoutNotice)]
  {
    if caller != Some(Receptionist) then Reject(s, Unauthorized)
    else if !Delivered(s, id) then Reject(s, PreconditionFailed(NotDelivered))
    else
      var b := s.billing[id];
      var credit := CreditLine(id, TotalDue(b), b.amountPaid.GetOr(0.0));
      match MobileOf(s, id)
      case None => Response(s, credit, Failed(ServerError(NoPatientForAppointment)))
      case Some(mobile) =>
        Response(WithProgress(s, id, b.progress.(checkoutDone := Some(true))),
                 credit + [WhatsApp(mobile, CheckoutNotice)], Ok)
  }

  /** Raising one flag of an existing row whose other flags are kept and whose
      order the new flags respect only adds to the store and keeps it consistent. */
  lemma WithProgressKeepsInvariants(s: Store, id: AppointmentId, p: Progress)
    requires id in s.billing && FlagsKept(s.billing[id].progress, p)
    ensures Grows(s, WithProgress(s, id, p))
    ensures Valid(s) && StagesInOrder(p) && (IsSet(p.prepared) ==> IsSet(s.billing[id].progress.prepared))
            ==> Valid(WithProgress(s, id, p))
  {
    var row := s.billing[id].(progress := p);
    assert WithProgress(s, id, p).billing == WriteRow(s.billing, id, row);
    WriteBillingGrows(s.billing, id, row);
    if Valid(s) && StagesInOrder(p) && (IsSet(p.prepared) ==> IsSet(s.billing[id].progress.prepared)) {
      WriteBillingConsistent(s.billing, s.appointments, id, row);
    }
  }

  lemma HandOverKeepsInvariants(s: Store, caller: Option<Role>, id: AppointmentId)
    ensures Grows(s, HandOver(s, caller, id).store)
    ensures Valid(s) ==> Valid(HandOver(s, caller, id).store)
  {
    if HandOver(s, caller, id).status.Ok? {
      if Valid(s) {
        assert StagesInOrder(s.billing[id].progress);
      }
      WithProgressKeepsInvariants(s, id, s.billing[id].progress.(handedOver := Some(true)));
    } else {
      GrowsReflexive(s);
    }
  }

  lemma CourierDoneKeepsInvariants(s: Store, caller: Option<Role>, id: AppointmentId)
    ensures Grows(s, CourierDone(s, caller, id).store)
    ensures Valid(s) ==> Valid(CourierDone(s, caller, id).store)
  {
    if CourierDone(s, caller, id).status.Ok? {
      if Valid(s) {
        assert StagesInOrder(s.billing[id].progress);
      }
      WithProgressKeepsInvariants(s, id, s.billing[id].progress.(couriered := Some(true)));
    } else {
      GrowsReflexive(s);
    }
  }

  lemma CompleteCheckoutKeepsInvariants(s: Store, caller: Option<Role>, id: AppointmentId)
    ensures Grows(s, CompleteCheckout(s, caller, id).store)
    ensures Valid(s) ==> Valid(CompleteCheckout(s, caller, id).store)
  {
    if CompleteCheckout(s, caller, id).status.Ok? {
      if Valid(s) {
        assert StagesInOrder(s.billing[id].progress);
      }
      WithProgressKeepsInvariants(s, id, s.billing[id].progress.(checkoutDone := Some(true)));
    } else {
      GrowsReflexive(s);
    }
  }

  lemma CompleteCheckoutIntendedKeepsInvariants(s: Store, caller: Option<Role>, id: AppointmentId)
    ensures Grows(s, CompleteCheckoutIntended(s, caller, id).store)
    ensures Valid(s) ==> Valid(CompleteCheckoutIntended(s, caller, id).store)
  {
    if CompleteCheckoutIntended(s, caller, id).status.Ok? {
      if Valid(s) {
        assert StagesInOrder(s.billing[id].progress);
      }
      WithProgressKeepsInvariants(s, id, s.billing[id].progress.(checkoutDone := Some(true)));
    } else {
      GrowsReflexive(s);
    }
  }

  /** In a consistent store a prepared appointment always resolves to a mobile
      number, so the lookups after the guards never fail. */
  lemma PreparedHasMobile(s: Store, id: AppointmentId)
    requires Valid(s) && Prepared(s, id)
    ensures MobileOf(s, id).Some?
  {
    assert id in s.appointments;
    assert s.appointments[id].patientId in s.patients;
  }

  /** In a consistent store hand-over succeeds exactly when the medicines were
      prepared; repeating it stores nothing new (the notice is sent again). */
  lemma HandOverGuard(s: Store, id: AppointmentId)
    requires Valid(s)
    ensures HandOver(s, Some(Receptionist), id).status.Ok? <==> Prepared(s, id)
    ensures var r := HandOver(s, Some(Receptionist), id);
      r.status.Ok? ==> HandOver(r.store, Some(Receptionist), id).store == r.store
  {
    var r := HandOver(s, Some(Receptionist), id);
    if Prepared(s, id) {
      PreparedHasMobile(s, id);
      var p := s.billing[id].progress.(handedOver := Some(true));
      assert r.store.billing[id].progress == p;
      assert r.store.billing[id].(progress := p.(handedOver := Some(true))) == r.store.billing[id];
      assert WriteRow(r.store.billing, id, r.store.billing[id]) == r.store.billing;
    }
  }

  /** In a consistent store courier-done succeeds exactly when the medicines were
      prepared and the delivery type is Courier; repeating it stores nothing new
      (the notice is sent again). */
  lemma CourierDoneGuard(s: Store, id: AppointmentId)
    requires Valid(s)
    ensures CourierDone(s, Some(Receptionist), id).status.Ok? <==>
              Prepared(s, id) && s.billing[id].deliveryType == Some(Courier)
    ensures var r := CourierDone(s, Some(Receptionist), id);
      r.status.Ok? ==> CourierDone(r.store, Some(Receptionist), id).store == r.store
  {
    var r := CourierDone(s, Some(Receptionist), id);
    if Prepared(s, id) {
      PreparedHasMobile(s, id);
      if s.billing[id].deliveryType == Some(Courier) {
        var p := s.billing[id].progress.(couriered := Some(true));
        assert r.store.billing[id].progress == p;
        assert r.store.billing[id].(progress := p.(couriered := Some(true))) == r.store.billing[id];
        assert WriteRow(r.store.billing, id, r.store.billing[id]) == r.store.billing;
      }
    }
  }

  /** In a consistent store the intended checkout succeeds exactly when the
      medicines were handed over or couriered, and a second checkout stores
      nothing new. */
  lemma CheckoutIntendedGuard(s: Store, id: AppointmentId)
    requires Valid(s)
    ensures CompleteCheckoutIntended(s, Some(Receptionist), id).status.Ok? <==> Delivered(s, id)
    ensures var r := CompleteCheckoutIntended(s, Some(Receptionist), id);
      r.status.Ok? ==> CompleteCheckoutIntended(r.store, Some(Receptionist), id).store == r.store
  {
    var r := CompleteCheckoutIntended(s, Some(Receptionist), id);
    if Delivered(s, id) {
      assert StagesInOrder(s.billing[id].progress);
      PreparedHasMobile(s, id);
      var p := s.billing[id].progress.(checkoutDone := Some(true));
      assert r.store.billing[id].progress == p;
      assert r.store.billing[id].(progress := p.(checkoutDone := Some(true))) == r.store.billing[id];
      assert WriteRow(r.store.billing, id, r.store.billing[id]) == r.store.billing;
    }
  }

  /** The two checkouts agree whenever the amount paid was saved; they differ
      only on a row whose amount paid is NULL. */
  lemma CheckoutsAgreeWhenPaidSet(s: Store, caller: Option<Role>, id: AppointmentId)
    requires id in s.billing ==> s.billing[id].amountPaid.Some?
    ensures CompleteCheckout(s, caller, id) == CompleteCheckoutIntended(s, caller, id)
  {
  }
}
