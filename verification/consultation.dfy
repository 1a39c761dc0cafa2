/** The doctor's diagnosis: reading the stored row and saving a new one, and the
    pharmacist's queue of prescribed appointments. */
module Consultation {
  import opened Wrappers
  import opened Text
  import opened Schema

  /** The fields of a diagnosis the doctor submits. */
  datatype DiagnosisForm = DiagnosisForm(
    chiefComplaints: string,
    symptoms: string,
    mind: string,
    psychology: string,
    diagnosis: string,
    medicines: string,
    tests: string,
    nextVisit: string)

  const PrescribedNotice := "Medicines prescribed"

  /** What a missing diagnosis reads as: empty texts and both flags 0. */
  const NoDiagnosis := Diagnosis("", "", "", "", "", "", "", "", false, false)

  /** The submitted fields of a stored diagnosis. */
  function FormOf(d: Diagnosis): DiagnosisForm {
    DiagnosisForm(d.chiefComplaints, d.symptoms, d.mind, d.psychology, d.diagnosis,
                  d.medicines, d.tests, d.nextVisit)
  }

  /** The row a save writes: the form as given, marked saved, and marked prescribed
      exactly when the medicines text has a non-whitespace character. */
  function Recorded(form: DiagnosisForm): (d: Diagnosis)
    ensures FormOf(d) == form
    ensures d.saved
    ensures d.prescribed <==> HasVisible(form.medicines)
  {
    StripNonEmptyIffVisible(form.medicines);
    Diagnosis(form.chiefComplaints, form.symptoms, form.mind, form.psychology, form.diagnosis,
              form.medicines, form.tests, form.nextVisit, true, Strip(form.medicines) != [])
  }

  /** Every stored diagnosis was written by a save: it is marked saved, and marked
      prescribed exactly when its medicines text has a visible character. */
  ghost predicate DiagnosesDerived(ds: map<AppointmentId, Diagnosis>) {
    forall a :: a in ds ==> ds[a].saved && (ds[a].prescribed <==> HasVisible(ds[a].medicines))
  }

  /** `get_diagnosis`: the stored row, or all defaults when there is none; only the
      caller's role can make it fail. */
  function GetDiagnosis(s: Store, caller: Option<Role>, id: AppointmentId): (r: Result<Diagnosis, Error>)
    ensures r.Failure? <==> caller != Some(Doctor)
    ensures r.Failure? ==> r.error == Unauthorized
    ensures r.Success? && id in s.diagnoses ==> r.value == s.diagnoses[id]
    ensures r.Success? && id !in s.diagnoses ==> r.value == NoDiagnosis
  {
    if caller != Some(Doctor) then Failure(Unauthorized)
    else if id in s.diagnoses then Success(s.diagnoses[id])
    else Success(NoDiagnosis)
  }

  /** `save_diagnosis`: replace the diagnosis row, ensure the placeholder billing
      row, commit, and then, only when medicines were prescribed, look up the
      patient's mobile number and send the notice. The lookup comes after the
      commit: for an appointment without a patient the handler fails but the
      diagnosis and the placeholder stay stored. */
  function SaveDiagnosis(s: Store, caller: Option<Role>, id: AppointmentId, form: DiagnosisForm): (r: Response)
    ensures caller != Some(Doctor) ==> r == Reject(s, Unauthorized)
    ensures caller == Some(Doctor) ==>
      && r.store.patients == s.patients && r.store.appointments == s.appointments
      && OnlyRowWritten(s.diagnoses, r.store.diagnoses, id) && r.store.diagnoses[id] == Recorded(form)
      && r.store.billing == EnsureBilling(s.billing, id)
    ensures r.status.Ok? <==> caller == Some(Doctor) && (HasVisible(form.medicines) ==> MobileOf(s, id).Some?)
    ensures caller == Some(Doctor) && r.status.Failed? ==> r.status.error == ServerError(NoPatientForAppointment)
    ensures r.sent != [] <==> caller == Some(Doctor) && HasVisible(form.medicines) && MobileOf(s, id).Some?
    ensures r.sent != [] ==> r.sent == [WhatsApp(MobileOf(s, id).value, PrescribedNotice)]
  {
    if caller != Some(Doctor) then Reject(s, Unauthorized)
    else
      var row := Recorded(form);
      var committed := s.(diagnoses := WriteRow(s.diagnoses, id, row), billing := EnsureBilling(s.billing, id));
      if !row.prescribed then Response(committed, [], Ok)
      else match MobileOf(s, id)
        case None => Response(committed, [], Failed(ServerError(NoPatientForAppointment)))
        case Some(mobile) => Response(committed, [WhatsApp(mobile, PrescribedNotice)], Ok)
  }

  /** `pharmacist_dashboard`'s filter: appointments of registered patients whose
      diagnosis is marked prescribed. In a consistent store every appointment has
      its patient, so the join drops nothing and the queue is exactly the booked
      appointments with a prescribing diagnosis. */
  function PharmacistQueue(s: Store): (q: set<AppointmentId>)
    ensures forall a :: a in q ==> a in s.appointments && a in s.diagnoses && s.diagnoses[a].prescribed
    ensures Valid(s) ==>
              forall a :: a in q <==> a in s.appointments && a in s.diagnoses && s.diagnoses[a].prescribed
  {
    set a | a in s.appointments && s.appointments[a].patientId in s.patients
              && a in s.diagnoses && s.diagnoses[a].prescribed
  }

  /** Reading back a saved diagnosis gives the submitted fields, saved, with the
      prescribed flag derived from the medicines text. */
  lemma SaveThenRead(s: Store, id: AppointmentId, form: DiagnosisForm)
    ensures var d := GetDiagnosis(SaveDiagnosis(s, Some(Doctor), id, form).store, Some(Doctor), id);
      && d.Success? && FormOf(d.value) == form && d.value.saved
      && (d.value.prescribed <==> HasVisible(form.medicines))
  {
  }

  /** A save replaces the whole row: after two saves the row holds the second form
      only, exactly as if the first had never happened. */
  lemma SaveReplacesWholeRow(s: Store, id: AppointmentId, first: DiagnosisForm, second: DiagnosisForm)
    ensures var s1 := SaveDiagnosis(s, Some(Doctor), id, first).store;
      SaveDiagnosis(s1, Some(Doctor), id, second).store.diagnoses
      == SaveDiagnosis(s, Some(Doctor), id, second).store.diagnoses
  {
    var d1 := SaveDiagnosis(s, Some(Doctor), id, first).store.diagnoses;
    var d2 := SaveDiagnosis(SaveDiagnosis(s, Some(Doctor), id, first).store, Some(Doctor), id, second).store.diagnoses;
    var d := SaveDiagnosis(s, Some(Doctor), id, second).store.diagnoses;
    assert forall a :: a in d2 <==> a in d;
    assert forall a :: a in d2 ==> d2[a] == d[a];
  }

  /** Medicines of only whitespace (empty, two spaces, a tab and a newline) are
      not a prescription: the row is not marked prescribed and no notice goes out. */
  lemma BlankMedicinesNotPrescribed(s: Store, id: AppointmentId, form: DiagnosisForm)
    requires forall i :: 0 <= i < |form.medicines| ==> IsSpace(form.medicines[i])
    ensures var r := SaveDiagnosis(s, Some(Doctor), id, form);
      r.status.Ok? && r.sent == [] && !r.store.diagnoses[id].prescribed
  {
  }

  /** Saving a diagnosis only adds to the store and keeps it consistent. */
  lemma SaveDiagnosisKeepsInvariants(s: Store, caller: Option<Role>, id: AppointmentId, form: DiagnosisForm)
    ensures Grows(s, SaveDiagnosis(s, caller, id, form).store)
    ensures Valid(s) ==> Valid(SaveDiagnosis(s, caller, id, form).store)
  {
    var s' := SaveDiagnosis(s, caller, id, form).store;
    if caller == Some(Doctor) {
      assert DiagnosesGrow(s.diagnoses, s'.diagnoses);
      if Valid(s) {
        forall a | a in s'.billing
          ensures StagesInOrder(s'.billing[a].progress) && (IsSet(s'.billing[a].progress.prepared) ==> a in s'.appointments)
        {
          if a !in s.billing {
            assert s'.billing[a] == Placeholder;
          }
        }
      }
    } else {
      GrowsReflexive(s);
    }
  }

  /** Saving a diagnosis keeps every stored prescribed flag derived from its
      medicines text: the written row is derived, and no other row changes. */
  lemma SaveDiagnosisKeepsDerived(s: Store, caller: Option<Role>, id: AppointmentId, form: DiagnosisForm)
    requires DiagnosesDerived(s.diagnoses)
    ensures DiagnosesDerived(SaveDiagnosis(s, caller, id, form).store.diagnoses)
  {
    var ds := SaveDiagnosis(s, caller, id, form).store.diagnoses;
    if caller == Some(Doctor) {
      forall a | a in ds
        ensures ds[a].saved && (ds[a].prescribed <==> HasVisible(ds[a].medicines))
      {
        if a == id {
          assert ds[a] == Recorded(form);
        } else {
          assert ds[a] == s.diagnoses[a];
        }
      }
    }
  }

  /** In a consistent store, saving the diagnosis of a booked appointment puts it
      in the pharmacist's queue exactly when medicines were prescribed, and the
      save never fails. */
  lemma SaveDiagnosisQueues(s: Store, id: AppointmentId, form: DiagnosisForm)
    requires Valid(s) && id in s.appointments
    ensures var r := SaveDiagnosis(s, Some(Doctor), id, form);
      && r.status.Ok?
      && (id in PharmacistQueue(r.store) <==> HasVisible(form.medicines))
  {
    var r := SaveDiagnosis(s, Some(Doctor), id, form);
    assert s.appointments[id].patientId in s.patients;
    assert r.store.diagnoses[id] == Recorded(form);
  }
}
