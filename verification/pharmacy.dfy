/** The pharmacist marks an appointment's medicines as prepared. */
module Pharmacy {
  import opened Wrappers
  import opened Schema

  const PreparedNotice := "Medicines prepared"

  /** `prepare_medicine`: ensure the placeholder billing row, raise its prepared
      flag, look up the patient's mobile number, commit and send the notice. The
      lookup comes before the commit, so an appointment without a patient fails
      with nothing stored. The handler does not look at the diagnosis at all. */
  function PrepareMedicine(s: Store, caller: Option<Role>, id: AppointmentId): (r: Response)
    ensures caller != Some(Pharmacist) ==> r == Reject(s, Unauthorized)
    ensures caller == Some(Pharmacist) && MobileOf(s, id).None? ==>
              r == Reject(s, ServerError(NoPatientForAppointment))
    ensures r.status.Ok? <==> caller == Some(Pharmacist) && MobileOf(s, id).Some?
    ensures r.status.Ok? ==>
      && r.store == s.(billing := r.store.billing)
      && OnlyRowWritten(s.billing, r.store.billing, id)
      // the prepared flag is raised and no other column of the row changes
      && IsSet(r.store.billing[id].progress.prepared)
      && r.store.billing[id].progress.(prepared := None) == BillingRow(s.billing, id).progress.(prepared := None)
      && r.store.billing[id].(progress := BillingRow(s.billing, id).progress) == BillingRow(s.billing, id)
      && r.sent == [WhatsApp(MobileOf(s, id).value, PreparedNotice)]
  {
    if caller != Some(Pharmacist) then Reject(s, Unauthorized)
    else match MobileOf(s, id)
      case None => Reject(s, ServerError(NoPatientForAppointment))
      case Some(mobile) =>
        var current := BillingRow(s.billing, id);
        var row := current.(progress := current.progress.(prepared := Some(true)));
        Response(s.(billing := WriteRow(s.billing, id, row)), [WhatsApp(mobile, PreparedNotice)], Ok)
  }

  /** Preparing only adds to the store and keeps it consistent: the flag is raised
      only for an appointment that exists, since otherwise the lookup fails. */
  lemma PrepareKeepsInvariants(s: Store, caller: Option<Role>, id: AppointmentId)
    ensures Grows(s, PrepareMedicine(s, caller, id).store)
    ensures Valid(s) ==> Valid(PrepareMedicine(s, caller, id).store)
  {
    var r := PrepareMedicine(s, caller, id);
    if r.status.Ok? {
      var row := r.store.billing[id];
      assert r.store.billing == WriteRow(s.billing, id, row);
      WriteBillingGrows(s.billing, id, row);
      if Valid(s) {
        assert StagesInOrder(BillingRow(s.billing, id).progress);
        WriteBillingConsistent(s.billing, s.appointments, id, row);
      }
    } else {
      GrowsReflexive(s);
    }
  }

  /** Preparation does not require a prescription: in a consistent store it
      succeeds for any booked appointment, with or without a diagnosis. */
  lemma PrepareIgnoresPrescription(s: Store, id: AppointmentId)
    requires Valid(s) && id in s.appointments
    ensures PrepareMedicine(s, Some(Pharmacist), id).status.Ok?
  {
    assert s.appointments[id].patientId in s.patients;
  }

  /** Preparing twice stores the same as preparing once (the notice is sent again). */
  lemma PrepareTwice(s: Store, id: AppointmentId)
    requires PrepareMedicine(s, Some(Pharmacist), id).status.Ok?
    ensures var r1 := PrepareMedicine(s, Some(Pharmacist), id);
      PrepareMedicine(r1.store, Some(Pharmacist), id) == r1
  {
    var r1 := PrepareMedicine(s, Some(Pharmacist), id);
    var row := r1.store.billing[id];
    assert row.(progress := row.progress.(prepared := Some(true))) == row;
    assert WriteRow(r1.store.billing, id, row) == r1.store.billing;
  }
}
