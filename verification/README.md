# Clinic appointment lifecycle — a Dafny model

This project models the appointment lifecycle of a small clinic-management web
application (`app.py`, a Flask app over SQLite). A visit moves through these
requests:

1. The receptionist books it, either from the JSON endpoint or from the
   dashboard form. Booking upserts the patient by mobile number.
2. The receptionist checks the patient in.
3. The doctor saves a diagnosis. The diagnosis is marked "prescribed" when its
   medicines text is not blank.
4. The pharmacist prepares the medicines.
5. The receptionist saves the billing form.
6. The medicines are handed over or couriered.
7. The visit is checked out. Checkout prints any outstanding credit.

Each state-changing handler is a pure function from a store to a `Response`,
which holds:

- the store as committed;
- the WhatsApp notices and credit lines it emitted, in order;
- `Ok`, or the error that ended the request.

The two read handlers, `get_diagnosis` and `get_billing`, change nothing. They
return a `Result`: the row as read, or `Unauthorized`.

The store is the four tables created by `init_db`, each a map from primary key
to row. Every column of the billing table is an `Option`, since the handlers
leave many of them NULL. The columns of the other three tables are plain values,
because every handler that writes them writes a value.

A request that fails before its commit leaves the store as it was. Two handlers
can fail after doing something:

- `save_diagnosis` commits before it looks up the patient's mobile number, so a
  failed lookup leaves the diagnosis stored.
- `complete_checkout` prints its credit line before that lookup, so a failed
  lookup has still printed the line.

A 500 caused by a Python exception is the error `ServerError(cause)`. The model
names the exception's cause: a malformed date, a duplicate key, an appointment
without a patient, or a NULL amount paid.

The handlers read state that is not in the store: the session's role, the clock,
`uuid4` and the JSON body. All of these are parameters:

- the role is `Option<Role>`, with `None` meaning no session;
- the clock is `Clock`, the values the handler takes from `datetime.now()`;
- the fresh ids are `newPatientId` and `newAppointmentId`;
- the request body is a form datatype.

The modules are:

- `Wrappers`: `Option` and `Result`.
- `Text`: Python's `str.strip()`.
- `Dates`: `strftime` and `strptime` with `'%Y-%m-%d'`.
- `Schema`: the tables, the placeholder billing row, the consistency invariant
  `Valid`, and the only-grows relation `Grows`.
- One module per group of handlers: `Booking`, `Arrival`, `Consultation`,
  `Pharmacy`, `Accounts`, `Delivery`.
- `Lifecycle`: runs any sequence of requests. Its main result is that every
  request keeps the invariant and only adds to the store.

## Behaviour worth knowing

- The dashboard booking form creates no placeholder billing row; only the JSON
  endpoint does (`app.py:757`). For a dashboard booking the row appears later,
  when the diagnosis is saved (`app.py:821`), the medicines are prepared
  (`app.py:839`) or the billing form is saved (`app.py:884`).
- When `prepare_medicine` finds no patient for the appointment, it fails with a
  500 from indexing `None` (`app.py:843`), before anything is committed.
- Checkout does not always succeed once the medicines are handed over or
  couriered. If the billing form was never saved, `amount_paid` is still NULL,
  and `None < total_due` raises TypeError. See Findings.
- Without a receptionist session, the dashboard form redirects to the login
  page (`app.py:109-110`) where the JSON endpoint answers 403. Both are
  modelled as `Unauthorized`.

## Model

| member | source | states |
|---|---|---|
| Text.StripNonEmptyIffVisible | app.py:815 | `medicines.strip()` is non-empty exactly when the text has a character that is not Python whitespace |
| Text.StripIsSlice | app.py:815 | the stripped text is a slice of the input with only whitespace outside it |
| Text.Strip | app.py:815 | the stripped text is no longer than the input and neither starts nor ends with whitespace |
| Dates.ReadClock | app.py:748-749 | the booking date text and today's date come from one clock reading, and the text parses back to that date |
| Dates.ParseDate | app.py:750 | a date strptime accepts is a real calendar date (year 1-9999, day within its month) |
| Dates.ParseFormatDate | app.py:748-750 | parsing the `'%Y-%m-%d'` text strftime wrote gives the same date back |
| Dates.FormatDate | app.py:748 | the booking date text is ten characters with dashes at positions 4 and 7; `Dates.ParseFormatDate` reads it back |
| Dates.FormatStamp | app.py:777 | the check-in stamp is 19 characters, the date text then a space |
| Schema.EnsureBilling | app.py:757-758 | `INSERT OR IGNORE` creates the placeholder row for a missing id and leaves every existing row as it was |
| Schema.EmptyStoreValid | app.py:15-38 | the freshly created empty tables satisfy the store invariant |
| Booking.PatientWithMobile | app.py:736-737 | the lookup by mobile finds a patient with that number, or reports that there is none |
| Booking.UpsertPatient | app.py:738-745 | a known mobile keeps its patient id and overwrites name, age and address; an unknown one inserts a new patient; no other patient changes |
| Booking.UpsertKeepsMobilesUnique | app.py:19 | the upsert keeps `mobile_number` unique |
| Booking.BookingNotices | app.py:761-763 | a booking always sends "booked for <date>", and sends "confirmation pending" unless it was made in the clinic |
| Booking.Refusal | app.py:730-756 | a booking goes through exactly when the caller is a receptionist, the upsert can run, the date parses, it is not a same-day self-service booking, and the appointment id is new; an unauthorised caller gets Unauthorized, a taken patient id or a taken appointment id (the INSERTs at app.py:744 and 754) a 500 for the duplicate key, a date strptime rejects a 500 for the malformed date, and a same-day self-service booking the same-day refusal |
| Booking.Admit | app.py:754-763 | a committed booking adds exactly one appointment for the upserted patient (not confirmed, check-in blank, booked today), touches no diagnosis, and adds the placeholder billing row only on the JSON route |
| Booking.Book | app.py:728-767 | a refused booking stores and sends nothing, despite the upsert already run; an accepted one is the committed booking, the same on the dashboard form (app.py:111-167) except for the placeholder billing row |
| Booking.AdmitGrows | app.py:754-758 | a committed booking loses no row and clears no flag |
| Booking.AdmitKeepsValid | app.py:754-758 | a committed booking keeps the store consistent |
| Booking.BookKeepsInvariants | app.py:728-767 | booking, refused or not, only adds to the store and keeps it consistent |
| Booking.BookUpsertsByMobile | app.py:124-133 | on either route (the dashboard's upsert is the JSON endpoint's, app.py:736-745), re-booking a known mobile reuses that patient and adds none; a new mobile adds exactly the new patient |
| Booking.BookingForTodayRefused | app.py:751-753 | a self-service booking dated with today's own date text is refused, with nothing stored or sent |
| Booking.BookTwiceTwoAppointments | app.py:747-756 | booking the same request twice gives two appointments for one patient |
| Arrival.CheckIn | app.py:769-786 | only a receptionist checks in; an unknown id answers not found and stores nothing; otherwise only the status and time-stamp columns of that appointment change, and nothing is sent |
| Arrival.CheckInKeepsInvariants | app.py:776-777 | check-in keeps the appointment's patient and the store's consistency |
| Arrival.CheckInOverwrites | app.py:776-777 | a second check-in overwrites the first, as if only the second had happened |
| Consultation.Recorded | app.py:815-820 | the saved row holds the submitted fields, is marked saved, and is marked prescribed exactly when the medicines text is not blank |
| Consultation.GetDiagnosis | app.py:788-808 | only the doctor reads; the stored row, or empty texts and zero flags when there is none |
| Consultation.SaveDiagnosis | app.py:810-831 | only the doctor saves; the diagnosis row is replaced and the placeholder billing row ensured; the "prescribed" notice goes to the patient's mobile exactly when prescribed; a missing patient fails after the commit |
| Consultation.PharmacistQueue | app.py:607-611 | the pharmacist's list holds only booked appointments whose diagnosis is marked prescribed; in a consistent store it holds every such appointment |
| Consultation.SaveThenRead | app.py:818-820 | reading a saved diagnosis back gives the submitted fields, saved, with the prescribed flag derived from the medicines |
| Consultation.SaveReplacesWholeRow | app.py:818-820 | `INSERT OR REPLACE` keeps nothing of an earlier save |
| Consultation.BlankMedicinesNotPrescribed | app.py:815 | medicines made only of whitespace (including none at all) mark nothing prescribed and send no notice |
| Consultation.SaveDiagnosisKeepsInvariants | app.py:818-823 | saving a diagnosis only adds to the store and keeps it consistent |
| Consultation.SaveDiagnosisKeepsDerived | app.py:815-821 | after a save, every stored diagnosis is still marked saved and marked prescribed exactly when its medicines text has a visible character |
| Consultation.SaveDiagnosisQueues | app.py:602-611 | after a save, a booked appointment is in the pharmacist's queue exactly when medicines were prescribed |
| Pharmacy.PrepareMedicine | app.py:833-848 | only the pharmacist prepares; a missing patient fails with nothing stored; otherwise only the prepared flag of the row is raised, the row created first if missing, and the notice is sent |
| Pharmacy.PrepareKeepsInvariants | app.py:839-844 | preparing only adds to the store and raises the flag only for a booked appointment |
| Pharmacy.PrepareIgnoresPrescription | app.py:833-848 | preparing succeeds for any booked appointment in a consistent store, whether or not anything was prescribed |
| Pharmacy.PrepareTwice | app.py:839-841 | preparing again stores nothing new |
| Accounts.ReadRow | app.py:859-875 | each of the eleven data columns reads as stored, or when NULL as its default (0.0, In-Person or the empty text); a flag reads as set exactly when it is 1 |
| Accounts.GetBilling | app.py:850-875 | only a receptionist reads; the stored row with defaults, or the defaults alone when there is none |
| Accounts.DefaultsAgree | app.py:859-875 | a missing row, a row of NULLs and the placeholder row all read the same |
| Accounts.Amount | app.py:891 | a null or zero amount is stored as 0 |
| Accounts.Entered | app.py:886-902 | the update writes each of the eleven data columns from the form: an amount as given, or 0 when null or zero; a text as given, or its default (In-Person for the delivery type, otherwise empty) when null or empty; the progress flags are kept |
| Accounts.BillingPrepare | app.py:877-906 | only a receptionist saves; only that appointment's row changes; it holds the form's values and its flags as before |
| Accounts.BillingPrepareKeepsInvariants | app.py:884-902 | saving billing moves no flag and keeps the store consistent |
| Accounts.BillingReadBack | app.py:886-902 | reading saved billing back shows the form with defaults, and the flags as they read before |
| Accounts.BillingPrepareIdempotent | app.py:884-902 | saving the same form twice stores the same as saving it once |
| Delivery.HandOver | app.py:908-926 | hand-over is refused unless prepared; a missing patient stores nothing; otherwise only the handed-over flag is raised, and the notice is sent |
| Delivery.CourierDone | app.py:928-949 | courier-done is refused unless prepared, then unless the delivery type is exactly Courier; a missing patient then fails with nothing stored and nothing sent; otherwise only the couriered flag is raised, and the notice is sent |
| Delivery.CreditLine | app.py:964-965 | a credit line is printed exactly when less was paid than is due, for the positive difference |
| Delivery.CompleteCheckout | app.py:951-972 | as written: refused unless handed over or couriered; a NULL amount paid fails with nothing stored; a failed patient lookup (app.py:966-967) fails with nothing stored but the credit line printed; otherwise the credit line, then the checkout flag and the notice |
| Delivery.CompleteCheckoutIntended | app.py:963-967 | checkout with a NULL amount paid counted as 0: succeeds exactly when delivered and the patient is found, and a failed patient lookup is the missing-patient error |
| Delivery.WithProgressKeepsInvariants | app.py:919 | rewriting one row's flags, keeping the old ones and respecting the stage order, keeps the store consistent |
| Delivery.HandOverKeepsInvariants | app.py:919 | hand-over only adds to the store and keeps it consistent |
| Delivery.CourierDoneKeepsInvariants | app.py:942 | courier-done only adds to the store and keeps it consistent |
| Delivery.CompleteCheckoutKeepsInvariants | app.py:962 | checkout as written only adds to the store and keeps it consistent |
| Delivery.CompleteCheckoutIntendedKeepsInvariants | app.py:962 | the intended checkout only adds to the store and keeps it consistent |
| Delivery.PreparedHasMobile | app.py:920-921 | in a consistent store, the mobile lookup after the prepared guard cannot fail |
| Delivery.HandOverGuard | app.py:914-919 | in a consistent store, hand-over succeeds exactly when prepared, and repeating it stores nothing new |
| Delivery.CourierDoneGuard | app.py:934-942 | in a consistent store, courier-done succeeds exactly when prepared with delivery type Courier, and repeating it stores nothing new |
| Delivery.CheckoutIntendedGuard | app.py:957-962 | in a consistent store, the intended checkout succeeds exactly when handed over or couriered, and repeating it stores nothing new |
| Delivery.CheckoutsAgreeWhenPaidSet | app.py:963-964 | the two checkouts differ only on a row whose amount paid is NULL |
| Lifecycle.StepKeepsInvariants | app.py:728-972 | every request, refused or not, only adds to the store, keeps mobiles unique and keeps a consistent store consistent; the requests include `complete_checkout` as written and the corrected checkout |
| Lifecycle.FrontStepKeepsInvariants | app.py:728-848 | booking, check-in, saving a diagnosis and preparing medicines each only add to the store and keep it consistent |
| Lifecycle.BackStepKeepsInvariants | app.py:877-972 | saving billing, hand-over, courier-done and both checkouts each only add to the store and keep it consistent |
| Lifecycle.StepKeepsDerived | app.py:728-972 | no request other than a diagnosis save touches the diagnoses table, so every request keeps each prescribed flag derived from its medicines text |
| Lifecycle.Run | app.py:728-972 | over any sequence of requests, with checkout as written or corrected, no row is lost, no appointment changes patient, no flag is cleared, consistency is kept, and prescribed flags stay derived from the medicines text |
| Lifecycle.RunFromEmptyValid | app.py:15-38 | every store reachable from the empty database, by the handlers as written and the corrected checkout, is consistent, and each of its diagnoses is marked prescribed exactly when its medicines text has a visible character |
| Lifecycle.TotalDueAfterBillingSaved | app.py:963 | after the billing form is saved, the amount paid is set and the total due is the charges entered less the discount |
| Lifecycle.TotalDueMatchesBillingScreen | app.py:963 | checkout's total due equals the billing screen's charges less its discount, each read with the NULL defaults of get_billing (app.py:860-870) |
| Lifecycle.UnsavedBillingCheckout | app.py:964 | a placeholder row that was handed over fails checkout as written, and the intended checkout completes it |
| Lifecycle.EndToEndVisit | app.py:728-972 | book, check in, diagnose, prepare and hand over all succeed, yet checkout as written fails because the billing form was never saved |

Some specification functions have no row, because a contract of their own
would only repeat their definition. The members that use them give them meaning.

- `Booking.SameDayDirect` (app.py:751) is the same-day rule, whose consequences
  `Booking.Refusal` and `Booking.BookingForTodayRefused` state.
- `Schema.MobileOf` (app.py:825-826) is the appointment-patient join.
  `Delivery.PreparedHasMobile` shows it cannot fail in a consistent store.
- `Accounts.TextOr` (app.py:894-900) is Python's `x or default`.
  `Accounts.Entered` and `Accounts.BillingReadBack` state what it stores.
- `Delivery.TotalDue` (app.py:963) and its charge sum `Delivery.TotalCharges`
  are checkout's total. `Lifecycle.TotalDueMatchesBillingScreen` ties the total
  to the billing screen, and `Lifecycle.TotalDueAfterBillingSaved` to the
  billing form.

## Left out

- Flask routing, sessions and login are not modelled. This includes the users table, the SHA-256 password check and the fixed accounts. The caller is given as an `Option<Role>`.
- The dashboard form answers a same-day self-service booking with an HTML error page and status 200 (app.py:139-159), where the JSON endpoint answers 400. Both are modelled as `ValidationFailed`, and the page's markup is not modelled.
- HTML templates, JavaScript and the dashboards' GET pages are not modelled. Of the dashboard listings, only the pharmacist's filter is modelled, and as a set, without the listing order.
- `save_to_csv` mirroring is not modelled. It only exports tables and does not affect the lifecycle.
- `send_whatsapp_message` and the credit `print` are not modelled as I/O. They are recorded as `Output` values in order.
- SQLite connections and transactions are reduced to the committed store. A request closed without a commit leaves the store as it was.
- Foreign keys are not enforced, as in SQLite's default, so a diagnosis or billing row may name an unknown appointment.
- `datetime.now()` and `uuid4()` are parameters. The handlers read the clock twice per booking, so `Clock` keeps the date text and today's date as separate values; `ReadClock` builds them from one reading.
- JSON parsing is not modelled. The billing form's fields are `Option` values, already parsed; `None` stands for a JSON null. The booking and diagnosis forms hold plain strings. A missing key in any form raises KeyError, a 500 with nothing stored; not modelled. A null in the booking or diagnosis form is not modelled either: it raises only for `appointment_date` (TypeError in `strptime`, app.py:750) and `medicines` (AttributeError on `.strip()`, app.py:815), and is stored as NULL without an error in any other field. Nor is a non-numeric amount in the billing form (a ValueError from `float`).
- A billing form without one of its eleven keys raises KeyError (app.py:891-901), a 500 with nothing stored; not modelled.
- A NULL in a patients, appointments or diagnoses column is not modelled. SQLite allows one, but no handler writes one when the request fields are strings.
- Money is an exact `real`, so floating-point rounding is not modelled.
- `age` is kept as the text submitted. SQLite's INTEGER affinity would convert numeric text.
- Dates.ParseDate: accepts ASCII digits only, whereas Python's strptime also accepts other Unicode decimal digits.
- The handlers' success reply messages are not modelled. Flags in replies are booleans here, not 0/1.
- The `confirmed` column is never changed by the handlers, so the model only checks that booking writes it as false.
- Booking.PatientWithMobile: requires mobiles to be unique, which the `UNIQUE` column guarantees. A store breaking that constraint is not modelled.

## Findings

| source | as written | input that shows it | evidently intended | confidence | as-written member | corrected member |
|---|---|---|---|---|---|---|
| app.py:964 | `if billing[6] < total_due:` compares the raw `amount_paid` column, while every other column is read with `or 0` | an appointment whose billing row is the placeholder (billing form never saved) is prepared and handed over; `amount_paid` is NULL, `None < total_due` raises TypeError, and checkout fails with a 500 and nothing stored | a NULL amount paid counts as 0, like the charges and discount on line 963, so the visit checks out with the whole total due as credit | not executed; high | Delivery.CompleteCheckout (exhibited by Lifecycle.UnsavedBillingCheckout and Lifecycle.EndToEndVisit) | Delivery.CompleteCheckoutIntended (proved in Delivery.CheckoutIntendedGuard and Delivery.CompleteCheckoutIntendedKeepsInvariants, and offered beside the as-written checkout by Lifecycle.Step) |
