/** The receptionist's billing screen: reading a billing row with defaults, and
    saving the billing form. */
module Accounts {
  import opened Wrappers
  import opened Schema

  /** What `get_billing` answers: every column with NULL replaced by its default. */
  datatype BillingView = BillingView(
    consultationCharge: real,
    medicineCharge: real,
    courierCharge: real,
    deliveryType: string,
    deliveredTo: string,
    courierChannel: string,
    courierTracking: string,
    amountPaid: real,
    paymentDate: string,
    paymentId: string,
    discount: real,
    prepared: bool,
    handedOver: bool,
    couriered: bool,
    checkoutDone: bool)

  /** The answer for an appointment without a billing row: zero charges,
      in-person delivery, empty texts and every flag 0. */
  const DefaultView := BillingView(0.0, 0.0, 0.0, InPerson, "", "", "", 0.0, "", "", 0.0,
                                   false, false, false, false)

  /** A row whose every column is NULL. */
  const NullRow := Billing(None, None, None, None, None, None, None, None, None, None, None,
                           Progress(None, None, None, None))

  /** A stored row as the read answers it, column by column: the stored value, or
      the column's default (0.0, In-Person or the empty text) when it is NULL; a
      flag reads as set exactly when it is 1. */
  function ReadRow(b: Billing): (v: BillingView)
    ensures b.consultationCharge.Some? ==> v.consultationCharge == b.consultationCharge.value
    ensures b.consultationCharge.None? ==> v.consultationCharge == 0.0
    ensures b.medicineCharge.Some? ==> v.medicineCharge == b.medicineCharge.value
    ensures b.medicineCharge.None? ==> v.medicineCharge == 0.0
    ensures b.courierCharge.Some? ==> v.courierCharge == b.courierCharge.value
    ensures b.courierCharge.None? ==> v.courierCharge == 0.0
    ensures b.deliveryType.Some? ==> v.deliveryType == b.deliveryType.value
    ensures b.deliveryType.None? ==> v.deliveryType == InPerson
    ensures b.deliveredTo.Some? ==> v.deliveredTo == b.deliveredTo.value
    ensures b.deliveredTo.None? ==> v.deliveredTo == ""
    ensures b.courierChannel.Some? ==> v.courierChannel == b.courierChannel.value
    ensures b.courierChannel.None? ==> v.courierChannel == ""
    ensures b.courierTracking.Some? ==> v.courierTracking == b.courierTracking.value
    ensures b.courierTracking.None? ==> v.courierTracking == ""
    ensures b.amountPaid.Some? ==> v.amountPaid == b.amountPaid.value
    ensures b.amountPaid.None? ==> v.amountPaid == 0.0
    ensures b.paymentDate.Some? ==> v.paymentDate == b.paymentDate.value
    ensures b.paymentDate.None? ==> v.paymentDate == ""
    ensures b.paymentId.Some? ==> v.paymentId == b.paymentId.value
    ensures b.paymentId.None? ==> v.paymentId == ""
    ensures b.discount.Some? ==> v.discount == b.discount.value
    ensures b.discount.None? ==> v.discount == 0.0
    ensures v.prepared <==> IsSet(b.progress.prepared)
    ensures v.handedOver <==> IsSet(b.progress.handedOver)
    ensures v.couriered <==> IsSet(b.progress.couriered)
    ensures v.checkoutDone <==> IsSet(b.progress.checkoutDone)
  {
    BillingView(
      b.consultationCharge.GetOr(0.0), b.medicineCharge.GetOr(0.0), b.courierCharge.GetOr(0.0),
      b.deliveryType.GetOr(InPerson), b.deliveredTo.GetOr(""), b.courierChannel.GetOr(""),
      b.courierTracking.GetOr(""), b.amountPaid.GetOr(0.0), b.paymentDate.GetOr(""),
      b.paymentId.GetOr(""), b.discount.GetOr(0.0),
      b.progress.prepared.GetOr(false), b.progress.handedOver.GetOr(false),
      b.progress.couriered.GetOr(false), b.progress.checkoutDone.GetOr(false))
  }

  /** `get_billing`: the stored row read with defaults, or the defaults alone when
      there is no row; only the caller's role can make it fail. */
  function GetBilling(s: Store, caller: Option<Role>, id: AppointmentId): (r: Result<BillingView, Error>)
    ensures r.Failure? <==> caller != Some(Receptionist)
    ensures r.Failure? ==> r.error == Unauthorized
    ensures r.Success? && id in s.billing ==> r.value == ReadRow(s.billing[id])
    ensures r.Success? && id !in s.billing ==> r.value == DefaultView
  {
    if caller != Some(Receptionist) then Failure(Unauthorized)
    else if id in s.billing then Success(ReadRow(s.billing[id]))
    else Success(DefaultView)
  }

  /** An absent row reads exactly like a row of NULLs, and like the placeholder:
      the defaults agree with the placeholder's values. */
  lemma DefaultsAgree()
    ensures ReadRow(NullRow) == DefaultView
    ensures ReadRow(Placeholder) == DefaultView
  {
  }

  /** The billing form as submitted, every key present; a field may be JSON null (None). */
  datatype BillingForm = BillingForm(
    consultationCharge: Option<real>,
    medicineCharge: Option<real>,
    courierCharge: Option<real>,
    deliveryType: Option<string>,
    deliveredTo: Option<string>,
    courierChannel: Option<string>,
    courierTracking: Option<string>,
    amountPaid: Option<real>,
    paymentDate: Option<string>,
    paymentId: Option<string>,
    discount: Option<real>)

  /** `float(x) if x else 0.0`: a null amount and a zero one are both stored as 0. */
  function Amount(x: Option<real>): (v: real)
    ensures v == x.GetOr(0.0)
  {
    if x.Some? && x.value != 0.0 then x.value else 0.0
  }

  /** `x or default`: a null text and an empty one are both replaced. */
  function TextOr(x: Option<string>, default: string): (v: string)
    ensures x.Some? && x.value != "" ==> v == x.value
    ensures x.None? || x.value == "" ==> v == default
  {
    if x.Some? && x.value != "" then x.value else default
  }

  /** The row the billing UPDATE leaves: all eleven data columns from the form
      (none NULL), the flags `progress` as they were. */
  function Entered(form: BillingForm, progress: Progress): (b: Billing)
    ensures b.progress == progress
    ensures b.consultationCharge == Some(form.consultationCharge.GetOr(0.0))
    ensures b.medicineCharge == Some(form.medicineCharge.GetOr(0.0))
    ensures b.courierCharge == Some(form.courierCharge.GetOr(0.0))
    ensures b.amountPaid == Some(form.amountPaid.GetOr(0.0))
    ensures b.discount == Some(form.discount.GetOr(0.0))
    ensures b.deliveryType == Some(TextOr(form.deliveryType, InPerson)) && b.deliveryType.value != ""
    ensures b.deliveredTo == Some(TextOr(form.deliveredTo, ""))
    ensures b.courierChannel == Some(TextOr(form.courierChannel, ""))
    ensures b.courierTracking == Some(TextOr(form.courierTracking, ""))
    ensures b.paymentDate == Some(TextOr(form.paymentDate, ""))
    ensures b.paymentId == Some(TextOr(form.paymentId, ""))
  {
    Billing(
      Some(Amount(form.consultationCharge)), Some(Amount(form.medicineCharge)), Some(Amount(form.courierCharge)),
      Some(TextOr(form.deliveryType, InPerson)), Some(TextOr(form.deliveredTo, "")),
      Some(TextOr(form.courierChannel, "")), Some(TextOr(form.courierTracking, "")),
      Some(Amount(form.amountPaid)), Some(TextOr(form.paymentDate, "")), Some(TextOr(form.paymentId, "")),
      Some(Amount(form.discount)),
      progress)
  }

  /** `billing_prepare`: ensure the placeholder row and overwrite its eleven data
      columns from the form; the four progress flags are never written. The
      appointment id is not checked against the appointments. */
  function BillingPrepare(s: Store, caller: Option<Role>, id: AppointmentId, form: BillingForm): (r: Response)
    ensures caller != Some(Receptionist) ==> r == Reject(s, Unauthorized)
    ensures r.status.Ok? <==> caller == Some(Receptionist)
    ensures r.status.Ok? ==>
      && r.sent == []
      && r.store == s.(billing := r.store.billing)
      && OnlyRowWritten(s.billing, r.store.billing, id)
      && r.store.billing[id] == Entered(form, BillingRow(s.billing, id).progress)
  {
    if caller != Some(Receptionist) then Reject(s, Unauthorized)
    else
      var row := Entered(form, BillingRow(s.billing, id).progress);
      Response(s.(billing := WriteRow(s.billing, id, row)), [], Ok)
  }

  /** Saving billing only adds to the store and keeps it consistent: no flag moves. */
  lemma BillingPrepareKeepsInvariants(s: Store, caller: Option<Role>, id: AppointmentId, form: BillingForm)
    ensures Grows(s, BillingPrepare(s, caller, id, form).store)
    ensures Valid(s) ==> Valid(BillingPrepare(s, caller, id, form).store)
  {
    var r := BillingPrepare(s, caller, id, form);
    if r.status.Ok? {
      var row := r.store.billing[id];
      assert r.store.billing == WriteRow(s.billing, id, row);
      WriteBillingGrows(s.billing, id, row);
      if Valid(s) {
        assert StagesInOrder(BillingRow(s.billing, id).progress);
        assert IsSet(row.progress.prepared) ==> id in s.billing;
        WriteBillingConsistent(s.billing, s.appointments, id, row);
      }
    } else {
      GrowsReflexive(s);
    }
  }

  /** Reading back saved billing shows the form, with null or falsy fields
      replaced by 0.0, '' or In-Person, and the flags as they read before. */
  lemma BillingReadBack(s: Store, id: AppointmentId, form: BillingForm)
    ensures var before := GetBilling(s, Some(Receptionist), id).value;
      GetBilling(BillingPrepare(s, Some(Receptionist), id, form).store, Some(Receptionist), id)
      == Success(BillingView(
           form.consultationCharge.GetOr(0.0), form.medicineCharge.GetOr(0.0), form.courierCharge.GetOr(0.0),
           TextOr(form.deliveryType, InPerson), TextOr(form.deliveredTo, ""),
           TextOr(form.courierChannel, ""), TextOr(form.courierTracking, ""),
           form.amountPaid.GetOr(0.0), TextOr(form.paymentDate, ""), TextOr(form.paymentId, ""),
           form.discount.GetOr(0.0),
           before.prepared, before.handedOver, before.couriered, before.checkoutDone))
  {
  }

  /** Saving the same form twice leaves the same state as saving it once. */
  lemma BillingPrepareIdempotent(s: Store, id: AppointmentId, form: BillingForm)
    ensures var r1 := BillingPrepare(s, Some(Receptionist), id, form);
      BillingPrepare(r1.store, Some(Receptionist), id, form) == r1
  {
    var r1 := BillingPrepare(s, Some(Receptionist), id, form);
    var row := r1.store.billing[id];
    assert Entered(form, row.progress) == row;
    assert WriteRow(r1.store.billing, id, row) == r1.store.billing;
  }
}
