# Iris clinic back end, modelled in Dafny

Iris is an optical-clinic management application. Its back end is Django and its client is
Next.js. This project models the application's core:

- **Sales ledger.** A sales order (frame and lens line items, an advance payment, an optional
  M-Pesa code) is validated by `SalesSerializer`. `Sales.save` recomputes the total, the balance
  due and three payment statuses on every write, and clears the examination's
  `booked_for_sales`. Balance payments go through `SalesSerializer.update`. A client's
  outstanding balance and payment status are folds over their orders.
- **Client and examination workflow.**
  - Registering a client also books a first, pending examination.
  - Completing an examination stamps the examiner and the state "Completed".
  - An existing client can be booked again.
  - A client's examinations can be listed.
- **Staff accounts.** `create_user` and `create_superuser` on the account manager.
- **API request counter.** A middleware counts each `/api/` request per (method, endpoint).
- **Identifier formatters.** Two front-end functions build a client id ("M/2024/03/0001") and a
  sale reference ("SO240315001").

## Modelling choices

- **Modules.** There is one module per core source file:
  - `ClinicModels` for `backend/clients/models.py`;
  - `ClinicSerializers` for `backend/clients/api/serializers.py`;
  - `ClinicViews` for `backend/clients/api/views.py`;
  - `UserAccounts` for `backend/users/models.py`;
  - `RequestLogger` for `backend/middlewares/api_request_logger.py`;
  - `ClientIdFormat` for `generate-client-id.ts`;
  - `SaleReferenceFormat` for `generate-reference.ts`.

  Two modules support them: `Common` holds `Option`, `Result`, `Outcome`, `Date` and the
  "first last" display name, and `DecimalText` holds the JavaScript `String(n)`,
  `padStart` and `slice(-k)` together with reading digits back as a number.
- **The database.** It is the class `ClinicModels.Clinic`:
  - clients are values in a map, since nothing in the core updates a client;
  - examinations are `Examination` objects in a map, since the views and `Sales.save` update them
    in place;
  - sales are `Sale` objects in a sequence.

  `Sale.Row()` and `Examination.Snapshot()` give a record's columns as a datatype. Each
  state-changing method is specified by a pure function on those values: `Reconcile` for
  `Sales.save`, `UpdateResult` for `update`, `CompletedRow` for completion. The lemmas are
  proved about those functions.
- **Request bodies.** A body is a sequence of keyed entries, as sent. The serializer sees a
  dictionary, so only the last entry for each name survives: `Validated` keeps exactly those
  entries and drops the read-only ones, and `ParsedPatch` does the same for an examination patch.
- **Money.** Amounts are integer cents. Refraction decimals are in hundredths. A
  `max_digits=10, decimal_places=2` field accepts fewer than 10^10 cents in absolute value.
  `ClinicModels.Storable` says that a sales row's five decimal columns fit. Django 4.2 raises
  `InvalidOperation` when asked to write a wider value, so `Sale.Save` reports whether the row
  was written.
- **Parameters.** Primary keys, the requesting user, the current date and `Math.random()` are
  passed in as parameters.

## Behaviour of the code worth knowing

- `Sales.save` recomputes `balance_due = total_price - advance_paid` with no clamp. `update` first
  clamps the balance to 0 and writes statuses, and the `save()` that follows overwrites both
  (`ClinicSerializers.UpdateClampOverwritten`). An advance larger than the total leaves a
  negative balance.
- `Sales.save` leaves `balance_payment_status` "Pending" after a partial payment
  (`ClinicSerializers.PartialPayment`).
- Booking an existing client leaves `visit_count` as it is (`ClinicViews.BookExistingClient`).
- Completing an examination sets neither `booked_for_sales` nor `last_examination_date`. Only the
  request body sets `booked_for_sales`.
- Nothing generates a `reg_no`. A registration without one stores "". A blank `reg_no` skips
  the uniqueness validator. In both cases the insert fails on the unique constraint when
  another client already holds "" (`ClinicViews.RegistrationOutcome`, outcome
  `DuplicateRegNo`, answered with status 500).
- Registration requires a non-blank `registered_by` in the request and then replaces it with the
  receptionist's name.
- `ClientRegistrationSerializer` lists a `branch` field that `Client` lacks, so every registration
  as written ends in a server error (see Findings). The rest of the model uses the field list
  without `branch`.
- Validation bounds each price, but not the total that `Sales.save` derives from it. Frame
  99,999,999.99 x2 passes every check, and then the write fails with a total of eleven digits
  (`ClinicSerializers.ScenarioWideOrder`, `ClinicSerializers.ScenarioWideUpdate`). The
  examination's `booked_for_sales` has already been cleared and saved by then, and there are no
  atomic requests. So a failed create leaves the examination un-booked with no order. A failed
  update leaves the stored order as it was. A payment that changes no line item never fails this
  way (`ClinicSerializers.PaymentStaysStorable`).
- `update` runs neither the "examination required" rule nor the "one order per examination" rule.
  An accepted update may move an order to another examination
  (`ClinicSerializers.UpdateMayMoveSale`).

## Model

| member | source | states |
|---|---|---|
| Common.FullName | backend/clients/api/views.py:14 | the display name is the first name, one space, then the last name, at those positions |
| ClinicModels.DefaultSaleRow | backend/clients/models.py:108-138 | a new order has quantities 1, prices, total, advance and balance 0, payment method Cash, no advance method or M-Pesa code, and all three statuses Pending |
| ClinicModels.StatusesFor | backend/clients/models.py:160-171 | order status Paid iff balance <= 0; Partially Paid iff balance > 0 and advance > 0; advance status equals order status; balance status is Paid or Pending, never Partially Paid |
| ClinicModels.Reconcile | backend/clients/models.py:151-171 | a saved row is reconciled (total from the line items, balance = total - advance, statuses derived) and keeps every non-derived column |
| ClinicModels.ReconcileDependsOnEntriesOnly | backend/clients/models.py:151-171 | the saved row does not depend on the total, balance or statuses stored before |
| ClinicModels.ReconciledIsFixedPoint | backend/clients/models.py:151-171 | saving a reconciled row changes nothing |
| ClinicModels.SaveIdempotent | backend/clients/models.py:151-171 | saving twice gives the same row as saving once |
| ClinicModels.StatusRules | backend/clients/models.py:160-171 | the three status rules, case by case, for every reconciled row |
| ClinicModels.Examination.constructor | backend/clients/models.py:53-75 | a new examination is Pending, not booked for sales, with empty text and every measurement NULL, acuity "N/A" |
| ClinicModels.Examination.Store | backend/clients/api/views.py:42 | the serializer's `save()` writes the examination's columns, which become exactly the given row |
| ClinicModels.Sale.Save | backend/clients/models.py:149-173 | the fields become `Reconcile` of the old row; the examination's `booked_for_sales` becomes false and nothing else of it changes, and it is untouched when the flag was already false; the result says whether the row fits its columns, which decides whether `super().save()` writes it |
| ClinicModels.Sale.DeriveStatuses | backend/clients/models.py:160-171 | the three statuses become `StatusesFor` of the stored balance and advance; every other column and the examination are kept |
| ClinicModels.Clinic.ExaminationsWithSale | backend/clients/api/serializers.py:67 | exactly the examination ids that have an order |
| ClinicModels.Clinic.InsertClient | backend/clients/models.py:34 | a client with an unused `reg_no` joins the table, and `reg_no` stays unique |
| ClinicModels.Clinic.InsertSale | backend/clients/api/serializers.py:73 | a saved order that fits its columns, with an unused id and on a stored examination, joins the end of the table; clients and examinations are unchanged and every stored order stays reconciled and within its columns |
| ClinicModels.Clinic.SaveSale | backend/clients/models.py:149-173 | saving an order reconciles its row and clears its examination's flag; it is written iff the reconciled row fits its columns, and then the tables are valid |
| ClinicModels.Clinic.CreateExamination | backend/clients/api/views.py:77 | one new examination with every default joins the table; clients and sales are unchanged |
| ClinicModels.Clinic.CreateSaved | backend/clients/api/serializers.py:71-75 | `create` clears the examination's flag; it appends one new order saved twice iff the saved row fits its columns, and otherwise stores no order |
| ClinicModels.Clinic.ClearBooking | backend/clients/models.py:155-157 | what a failed save leaves behind: only the examination's `booked_for_sales` becomes false, and the tables stay valid |
| ClinicSerializers.Validated | backend/clients/api/serializers.py:56-57 | validated data holds only request entries that are not read-only, at most one per name |
| ClinicSerializers.ValidatedLookup | backend/clients/api/serializers.py:56-57 | a name read from validated data gives the request's last entry for it, and nothing for a read-only name |
| ClinicSerializers.EarlierEntryOverridden | backend/clients/api/serializers.py:56-57 | an entry followed by a later one with the same name has no effect on the validated data |
| ClinicSerializers.ValidatedWritable | backend/clients/api/serializers.py:57 | a body without read-only entries, naming each attribute once, is its own validated data |
| ClinicSerializers.Lookup | backend/clients/api/serializers.py:61 | `data.get`: the found entry is in the data under that name; nothing is found iff no entry has that name |
| ClinicSerializers.FieldErrors | backend/clients/models.py:105-141 | no field error iff every validated entry fits its column (lengths, decimal ranges, quantities up to 2147483647, a stored examination) and, on creation, every required column is present |
| ClinicSerializers.Validate | backend/clients/api/serializers.py:59-69 | an M-Pesa advance without a code fails under `mpesa_transaction_code`; passes iff the M-Pesa rule holds and, on creation, the examination is given and has no order yet |
| ClinicSerializers.CreateCheck | backend/clients/api/serializers.py:59-69 | an accepted create names a known examination without an order and meets the M-Pesa rule |
| ClinicSerializers.Assigned | backend/clients/api/serializers.py:99-101 | the `setattr` loop as a fold over the entries in order (with or without `advance_paid`); its properties are `AssignedConcat`, `AssignedExamination`, `AssignedAdvance`, `AssignedKeepsLineItems` and `AssignedSkippingKeepsAdvance` |
| ClinicSerializers.CreatedRow | backend/clients/api/serializers.py:71-75 | the row `create` leaves: the validated entries over the column defaults, saved twice; `CreatedRowFacts` and `CreateSale` state what it holds |
| ClinicSerializers.Pay | backend/clients/api/serializers.py:88-97 | a non-positive amount changes nothing; a positive one is added to `advance_paid`, the balance drops by it and is clamped at 0, both statuses are Paid exactly when the amount covers the balance; no other column changes |
| ClinicSerializers.UpdateResult | backend/clients/api/serializers.py:77-104 | the row an accepted update leaves: the payment, the other entries, one save; `UpdateSale` is proved to leave it, and `UpdateClampOverwritten`, `UpdateIsReconciled` and `UpdateAddsPayment` state its properties |
| ClinicSerializers.SecondSaleRejected | backend/clients/api/serializers.py:67-68 | a second order for an examination that already has one is rejected |
| ClinicSerializers.UpdateCheck | backend/clients/api/serializers.py:77-86 | an order with balance 0 refuses every update; an accepted payment is at most the stored balance; a larger one fails with that balance; a body that passes field validation and `validate` with a payment within a non-zero balance is accepted |
| ClinicSerializers.UpdateMayMoveSale | backend/clients/api/serializers.py:63-68 | on update the examination rules do not run: any known examination is accepted and assigned |
| ClinicSerializers.AssignedSkippingKeepsAdvance | backend/clients/api/serializers.py:99-101 | the `setattr` loop of `update` never assigns `advance_paid` |
| ClinicSerializers.AssignedExamination | backend/clients/api/serializers.py:73 | creation sets the foreign key to the request's examination |
| ClinicSerializers.AssignedAdvance | backend/clients/api/serializers.py:73 | creation takes `advance_paid` from the request when it is given |
| ClinicSerializers.AssignedKeepsLineItems | backend/clients/api/serializers.py:99-101 | assigning entries that are not prices or quantities keeps the line items |
| ClinicSerializers.CreatedRowFacts | backend/clients/api/serializers.py:71-75 | a created order is reconciled, equals one save of the inserted row, and carries the request's examination and advance |
| ClinicSerializers.UpdateAddsPayment | backend/clients/api/serializers.py:88-101 | an update raises `advance_paid` by exactly a positive amount and leaves it alone otherwise |
| ClinicSerializers.UpdateClampOverwritten | backend/clients/api/serializers.py:88-103 | the clamp and statuses written by `update` do not affect the result: it is the payment credited, the entries assigned, then `save` |
| ClinicSerializers.UpdateIsReconciled | backend/clients/api/serializers.py:99-103 | after an update, the balance and statuses are the ones `save` derives |
| ClinicSerializers.SettledBalance | backend/clients/api/serializers.py:88-103 | with line items untouched, a positive payment moves exactly its amount from the balance to the amount paid |
| ClinicSerializers.PartialPayment | backend/clients/api/serializers.py:88-103 | a partial payment lowers the balance by the amount; balance status Pending, the other two Partially Paid |
| ClinicSerializers.FullPayment | backend/clients/api/serializers.py:79-103 | paying exactly the balance settles the order (balance 0, all Paid), and every later update is refused |
| ClinicSerializers.ScenarioOrderAccepted | backend/clients/api/serializers.py:59-69 | a complete order request for a known examination without an order is accepted, whatever frame price within its column it carries |
| ClinicSerializers.ScenarioOrderCreated | backend/clients/models.py:151-171 | frame 100.00 x2 and lens 50.00 x1 with nothing paid: total 250.00, balance 250.00, all Pending |
| ClinicSerializers.ScenarioWideOrder | backend/clients/models.py:149-173 | frame 99,999,999.99 x2 passes every create validation, yet the created total is 10^10 cents or more, so the row does not fit |
| ClinicSerializers.ScenarioWideUpdate | backend/clients/api/serializers.py:77-104 | the same line items sent as an update to any order with a positive balance are accepted, and the resulting row does not fit |
| ClinicSerializers.AssignedFits | backend/clients/models.py:112-132 | assigning entries that passed field validation keeps both prices and the amount paid within their columns |
| ClinicSerializers.CreatedStorable | backend/clients/models.py:130-133 | for an order without field errors, the created row fits its columns iff its total and its balance do |
| ClinicSerializers.PaymentStaysStorable | backend/clients/api/serializers.py:87-104 | an accepted update of a stored order that changes no price or quantity always fits its columns |
| ClinicSerializers.ScenarioPayments | backend/clients/api/serializers.py:77-104 | paying 100.00 leaves a balance of 150.00 (balance status Pending, order Partially Paid); paying 150.00 settles it; paying again is refused |
| ClinicSerializers.SetAttrOn | backend/clients/api/serializers.py:101 | `setattr` of one entry on the stored order changes exactly that column; the examination key resolves to a stored examination |
| ClinicSerializers.ApplyPayment | backend/clients/api/serializers.py:88-97 | the in-place payment step of `update` |
| ClinicSerializers.AssignEntries | backend/clients/api/serializers.py:99-101 | the `setattr` loop assigns every validated entry but `advance_paid`, in order |
| ClinicSerializers.CreateSale | backend/clients/api/serializers.py:59-75 | succeeds iff validation passes and the created row fits its columns; a rejection changes nothing; an accepted request clears only its examination's flag, and then either appends one order whose row is the created row or, when the row is too wide, stores nothing and answers `DecimalOverflow` |
| ClinicSerializers.UpdateSale | backend/clients/api/serializers.py:77-104 | the verdict is `UpdateCheck` on the stored row, then `DecimalOverflow` when `UpdateResult` does not fit its columns; a rejection changes nothing; an accepted request clears only the flag of the examination the order ends on, and leaves the row `UpdateResult` on success or as stored on overflow |
| ClinicSerializers.UpdateAccepted | backend/clients/api/serializers.py:87-104 | the writes of an accepted update: the order becomes the reconciled payment-and-assignment row iff that fits its columns and is untouched otherwise; the examination it points to, always a stored one, has its flag cleared, and no other changes |
| ClinicSerializers.Balance | backend/clients/api/serializers.py:125-127 | never negative; 0 iff the client has no order with a positive balance; at least each such order's balance |
| ClinicSerializers.PaymentStatusOf | backend/clients/api/serializers.py:129-131 | "fully_paid" iff the balance is 0, otherwise "pending_balance" |
| ClinicSerializers.ClientName | backend/clients/api/serializers.py:35-36 | a name iff the examination's client exists; it is the client's first name, a space, then the last name |
| ClinicViews.GenderOf | backend/clients/models.py:15-19 | a gender exactly for the codes "M", "F" and "O" |
| ClinicViews.RegistrationErrors | backend/clients/models.py:21-34 | no error iff first and last name, phone, email, location and `registered_by` are present, non-blank and within their lengths (100, 100, 20, 254, 100, 100), the email has an '@', `dob` is given, the gender code is valid, a given `visit_count` is within 0..2147483647, and a non-blank `reg_no` is at most 20 long and unused (a blank one skips the uniqueness validator) |
| ClinicViews.NewClient | backend/clients/api/views.py:18 | the stored client has the receptionist as `registered_by`, visit count 1 unless given, and the given `reg_no` or "" |
| ClinicViews.Booked | backend/clients/api/views.py:20-30 | `booked` is "true" iff registered and "false" iff rejected |
| ClinicViews.RegistrationOutcome | backend/clients/api/views.py:17-30 | rejected iff there are errors, with those errors; a duplicate iff valid, `reg_no` missing or blank, and some client holds ""; registered only with a fresh `reg_no` |
| ClinicViews.RegistrationStatusAsWritten | backend/clients/api/serializers.py:38-46 | the status is 201, 400 or 500; 201 iff every listed field is a column, the request has no error and its `reg_no` is non-blank or no client holds ""; 400 iff every listed field is a column and the request has errors |
| ClinicViews.RegistrationAlwaysFailsAsWritten | backend/clients/api/serializers.py:41-44 | with `branch` in the field list every registration gets 500, also one that the list without `branch` answers with 201 |
| ClinicViews.CorrectedFieldsAreColumns | backend/clients/api/serializers.py:41-44 | without `branch` every field of the registration serializer is a column of `Client` |
| ClinicViews.RegisterClient | backend/clients/api/views.py:13-30 | with the field list without `branch`: the response is the outcome; only on success is exactly one client added together with exactly one default Pending examination for it; otherwise nothing changes |
| ClinicViews.ParsedPatch | backend/clients/api/views.py:40 | the serializer receives entries of the patch, at most one per field |
| ClinicViews.ParsedPatchKeepsLast | backend/clients/api/views.py:40 | the last entry of the patch for each field reaches the serializer |
| ClinicViews.EarlierExamEntryOverridden | backend/clients/api/views.py:40 | an entry followed by a later one for the same field has no effect |
| ClinicViews.ExamErrors | backend/clients/models.py:52-75 | no error iff every entry of the patch fits its column |
| ClinicViews.CompletedRow | backend/clients/api/views.py:42 | the completed row has state Completed and the user as examiner |
| ClinicViews.ApplyExamFields | backend/clients/api/views.py:40-42 | the patch's entries written over the examination row in order; `ApplyKeepsSameButStamp` shows that it never looks at state or examiner |
| ClinicViews.CompletionIgnoresStamp | backend/clients/api/views.py:40-42 | the current state and examiner do not matter, so completing again is allowed and gives the same row |
| ClinicViews.CompletionIgnoresBodyStamp | backend/clients/api/views.py:42 | whatever the body says about state or examiner is overwritten |
| ClinicViews.CompleteExamination | backend/clients/api/views.py:36-50 | 404 iff the examination is unknown; 400 iff the patch as the serializer receives it (last entry per field) is invalid; on 200 only that examination changes, to the completed row; otherwise nothing changes |
| ClinicViews.ClientExaminations | backend/clients/api/views.py:65-69 | 404 iff the client is unknown; otherwise exactly the examinations of that client |
| ClinicViews.BookExistingClient | backend/clients/api/views.py:75-85 | 404 iff the client is unknown; otherwise exactly one new default examination is added to that client's list; clients (with `visit_count`), other examinations and sales are unchanged |
| UserAccounts.LowerChar | backend/users/models.py:10 | lower-casing maps upper-case ASCII letters down and leaves other characters alone |
| UserAccounts.Lower | backend/users/models.py:10 | `.lower()` keeps the length and lower-cases each character |
| UserAccounts.LowerIdempotent | backend/users/models.py:10 | lower-casing twice is lower-casing once |
| UserAccounts.StoredEmail | backend/users/models.py:10 | an address without '@' is stored lower-cased as given |
| UserAccounts.StoredEmailOfClean | backend/users/models.py:10 | an address with no surrounding whitespace is stored lower-cased |
| UserAccounts.StoredEmailIgnoresCase | backend/users/models.py:10 | addresses differing only in case are stored alike |
| UserAccounts.UserAccount.constructor | backend/users/models.py:12-16 | a new account is active, neither staff nor superuser, with the given email, role and names |
| UserAccounts.UserAccount.Promote | backend/users/models.py:25-26 | both flags set, other fields kept |
| UserAccounts.UserAccountManager.CreateUser | backend/users/models.py:6-20 | a missing or empty email is refused; a taken stored email is refused; refusals store nothing; otherwise one account with the normalised email, role "staff" by default, active, no flags; emails stay unique |
| UserAccounts.UserAccountManager.CreateSuperuser | backend/users/models.py:22-28 | as `CreateUser` with role "staff" (the same refusals; one new account with the given id, names and normalised email), and both the staff and superuser flags set |
| RequestLogger.Counted | backend/middlewares/api_request_logger.py:11-19 | a non-"/api/" request leaves the table alone; a tracked one raises its (method, path) count by 1, starting from 0; other rows are unchanged |
| RequestLogger.ReplayCounts | backend/middlewares/api_request_logger.py:11-19 | from an empty table, a row exists exactly for the endpoints reached, holding the number of tracked requests to it |
| RequestLogger.UntrackedLeaveLog | backend/middlewares/api_request_logger.py:11 | requests outside "/api/" never change the table |
| RequestLogger.ApiRequestLogger.Call | backend/middlewares/api_request_logger.py:8-21 | the response is returned unchanged and the table becomes `Counted` of the old one |
| DecimalText.NatToString | iris-client-management/lib/utils/generate-client-id.ts:5 | `String(n)` has as many characters as `n` has digits, all digits, with no leading zero |
| DecimalText.ParseNatToString | iris-client-management/lib/utils/generate-client-id.ts:5 | `String(n)` reads back as `n` |
| DecimalText.PadStart | iris-client-management/lib/utils/generate-client-id.ts:5 | `padStart` never truncates, has length max(length, width), ends with the input and fills the front |
| DecimalText.ZeroPadded | iris-client-management/lib/utils/generate-client-id.ts:5 | the padded number has max(digits, width) digits and reads back as the number |
| DecimalText.ZeroPaddedWidth | iris-client-management/lib/utils/generate-reference.ts:6-8 | below 10^width the padded text is exactly `width` long |
| DecimalText.TwoDigits | iris-client-management/lib/utils/generate-reference.ts:4-5 | two digits reading back as the number |
| DecimalText.TwoDigitsForm | iris-client-management/lib/utils/generate-reference.ts:4-5 | the tens digit then the units digit |
| DecimalText.SliceLast | iris-client-management/lib/utils/generate-reference.ts:3 | `slice(-k)` is the last k characters, or the whole string when it is shorter |
| ClientIdFormat.MonthSegment | iris-client-management/lib/utils/generate-client-id.ts:4 | two digits that read back as the month number 1 to 12 |
| ClientIdFormat.MonthSegmentDigits | iris-client-management/lib/utils/generate-client-id.ts:4 | the month segment is the tens then the units digit of `getMonth() + 1` |
| ClientIdFormat.MonthSegmentEnds | iris-client-management/lib/utils/generate-client-id.ts:4 | January is "01", December "12" |
| ClientIdFormat.GenerateClientId | iris-client-management/lib/utils/generate-client-id.ts:1-5 | the length is 6 plus the year text plus the number segment |
| ClientIdFormat.IdSegment | iris-client-management/lib/utils/generate-client-id.ts:5 | `String(clientId).padStart(4, "0")`; `ClientIdNumberSegment` states its digits and read-back |
| ClientIdFormat.ClientIdHeadSegments | iris-client-management/lib/utils/generate-client-id.ts:3-5 | the id starts "M/", then the year, '/', the two-digit month, '/' |
| ClientIdFormat.ClientIdNumberSegment | iris-client-management/lib/utils/generate-client-id.ts:5 | after the head comes the number: never truncated, max(digits, 4) long, all digits, reading back as the id |
| ClientIdFormat.ClientIdInjective | iris-client-management/lib/utils/generate-client-id.ts:5 | for a fixed date, equal ids iff equal numbers |
| ClientIdFormat.FirstClientOfMarch2024 | iris-client-management/lib/utils/generate-client-id.ts:1-5 | client 1 in March 2024 is "M/2024/03/0001" |
| SaleReferenceFormat.RandomPart | iris-client-management/lib/utils/generate-reference.ts:6 | the random number is the floor of rnd x 1000, in 0..999 |
| SaleReferenceFormat.RandomSegment | iris-client-management/lib/utils/generate-reference.ts:6-8 | exactly three digits reading back as the random number |
| SaleReferenceFormat.GenerateSaleReference | iris-client-management/lib/utils/generate-reference.ts:1-9 | the length is 9 plus the year segment |
| SaleReferenceFormat.YearSegmentForm | iris-client-management/lib/utils/generate-reference.ts:3 | the year segment is the tens then the units digit of the year |
| SaleReferenceFormat.YearSegmentDigits | iris-client-management/lib/utils/generate-reference.ts:3 | two digits reading back as the year modulo 100 |
| SaleReferenceFormat.SaleReferenceSegments | iris-client-management/lib/utils/generate-reference.ts:2-9 | 11 characters, "SO" then only digits, whose segments read back as year mod 100, month, day and random number |
| SaleReferenceFormat.SaleReferenceDistinguishesRandom | iris-client-management/lib/utils/generate-reference.ts:9 | on one day, equal references iff equal random numbers |
| SaleReferenceFormat.ReferenceOf15March2024 | iris-client-management/lib/utils/generate-reference.ts:1-9 | 15 March 2024 with random number 1 is "SO240315001" |

## Left out

- Password hashing (`set_password`) is an opaque library call. Accounts carry no password.
- Timestamps, `auto_now` columns, `last_requested`, and UUID generation. Ids and dates are
  parameters, so `get_latest_examination_id`, `get_latest_sales_id` and the `-created_at`
  ordering are not modelled.
- Notification signals (`backend/clients/signals.py`) only print messages.
- The downstream `get_response` of the middleware is a parameter, its response. The model
  states that it is returned unchanged, but not that counting happens after it was produced.
- Concurrency. The check-then-insert of the "one order per examination" rule runs on a
  sequential store.
- Balance: the `float()` of `get_balance` is taken as exact.
- RequestLogger.Counted: the count is an unbounded integer. The 32-bit overflow of the
  `IntegerField` is not modelled.
- RegistrationErrors: of Django's email validation, only the presence of '@' is checked. Date
  validity and the full `EmailField` rules are not modelled.
- StoredEmail: Django's `normalize_email` is not part of this model. It is modelled as its
  documented behaviour: strip, and lower-case the domain when there is an '@'. Case folding
  covers ASCII only. Whitespace is the full set of `str.isspace()`. Django REST framework's
  trimming of whitespace in request strings is not modelled anywhere.
- ClientIdInjective: proved for non-negative client numbers. A negative number is padded after
  its minus sign, for example "00-5", which `IdSegment` reproduces without any property stated
  about it.
- ClientIdNumberSegment: the JavaScript `number` id is modelled as an integer. `String()` of a
  fractional id ("1.5") or of one of 10^21 or more ("1e+21") is not modelled, so the digit and
  read-back facts are stated for integers only. The only caller passes 1.
- SaleReferenceSegments: stated for years from 10 on. For an earlier year `slice(-2)` keeps a
  single digit.
- GenerateSaleReference: `Math.random()` and `new Date()` are parameters. The month and day are
  assumed to be what `Date` returns.
- UpdateSale: validation is modelled as partial, with only the entries sent being checked and
  no column required. The view that calls `update` is not part of this model. The client's
  balance payment sends a PUT whose body holds only `advance_paid`, which a non-partial
  serializer would reject for the missing `examination`.
- FieldErrors: request values are typed, so a request the parser rejects cannot be written.
  This covers a wrongly typed value, a negative `frame_quantity` or `lens_quantity`
  (`PositiveIntegerField`) and an unknown `payment_method` or `advance_payment_method`. All of
  these are answered 400 by the source. A blank `advance_payment_method`, which the source accepts
  (`blank=True`) and stores as "", is not representable either: the model has a method or NULL.
- ExamErrors: likewise, an examination patch with a wrongly typed value or an unknown `state` is
  not representable. The source answers 400 for it.
- UpdateAccepted: when the final write fails, the source has already changed the instance in
  memory, and that instance is then thrown away. The model keeps only the table. It decides on
  the row `save()` would write before changing the stored order, so the in-memory state of the
  failed request is not modelled.
- The front-end pages, network wrappers, authentication plumbing, the administration and
  analytics views, and configuration are outside the core.

## Findings

| source | as written | input that shows it | evidently intended | confidence | as-written member | corrected member |
|---|---|---|---|---|---|---|
| backend/clients/api/serializers.py:43 | `ClientRegistrationSerializer.Meta.fields` lists `branch`, which is not a field of `Client`, so `is_valid()` raises `ImproperlyConfigured` and the view answers 500 | any registration request, for example a complete one with an unused `reg_no` (`ClinicViews.RegistrationAlwaysFailsAsWritten`) | the field list without `branch`, so that a valid request is stored and answered with 201 | not executed | ClinicViews.RegistrationStatusAsWritten | ClinicViews.RegisterClient |
