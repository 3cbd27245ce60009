# metropodz_mvp reservation, payment and verification core in Dafny

This project models the decision-making core of the metropodz backend. The
backend rents sleeping pods by the hour. Its core is made of six parts:

- **Reservation engine.** Date validation, the pod-must-be-available check,
  the three-case slot-conflict test against confirmed bookings, the price
  `ceil(hours) * price_per_hour`, and the atomic insert of a pending booking
  together with its active access code. Then confirmation and owner-only
  cancellation, which revokes the access code.
- **Payment reconciliation.** The case-insensitive mapping of gateway status
  words, the refund-type classification and the webhook pipeline: signature
  gate, then persist the event, update the order, upsert the transaction
  keyed by the gateway payment id, and finally mark the event processed.
  Also status polling that writes only on change, and history pagination.
  Underneath is the payment repository with its parameterised SET-clause
  builders.
- **OTP state machine.** The pending/expired gate, the attempt counter, the
  `verified`/`failed` transitions, the expiry sweep, the latest-active
  lookup and the clean-up of old requests.
- **Identity verification.** The next-step decision, the completeness
  predicate, Aadhaar masking and pagination. Then the OTP expiry and
  attempt-limit gates of `verifyAadharOTP`, and the repository's
  record-level transitions (CASE-driven promotion to `verified`, COALESCE
  updates, expiry clean-up, attempt log and counts, the `findAll`
  WHERE-clause builder).
- **Pod service.** The `updatePod` clause/value builder with consecutive
  placeholders, amenity replacement, the `createPod` coordinate guard and
  amenity placeholders, and the parameter list of `getPodsNearUser`.
- **Validators and access PIN.** The email and phone-number recognisers
  (proved equal to a hand-written reading of each regular expression), the
  date-range check and the 6-digit PIN.

Database tables are in-memory sequences held by classes: `BookingStore`,
`PaymentStore`, `OtpStore`, `VerificationStore` and `PodCatalog`. Each
service method that runs a transaction is modelled as one atomic step.

The following are parameters of the operations:

- The clock (`now`, in milliseconds).
- The random draw behind the PIN.
- Generated identifiers, and the answers of the payment gateway and of the
  identity-verification provider. A gateway call that can fail is a
  `Result`: its answer, or the message it failed with.
- The result of the webhook signature check.
- The two store failures whose handling the code shows: the access-code
  insert failing inside `createBooking`, and `upsertTransaction`'s
  swallowed error.

Timestamps are integers in milliseconds. A JavaScript `Date` that may be
invalid is `Instant = Invalid | At(ms)`. Prices are integers in minor units.
Coordinates are `real`.

Where the documented design and the code differ, the model follows the code:

- A booking conflicts only with `confirmed` bookings, and `confirmBooking`
  does not re-check conflicts. So two overlapping `pending` bookings can both
  be created and both be confirmed. `UnconfirmedNeverBlocks` states the first
  step. In particular, booking 10:00-12:00 and then 11:00-13:00 on the same
  pod succeeds while the first booking is still pending.
- `updateOrder`/`updateTransaction` test the JSON columns before the
  function check. A function stored under `customer_details` therefore still
  gets a SET clause, whose value is NULL (`JSON.stringify` of a function is
  `undefined`).
- `updateImageUrl` evaluates its CASE against the pre-update row. The first
  selfie upload therefore never promotes a record to `verified`; the next
  upload does (`FirstSelfieNotPromoted`).
- `getUserPaymentHistory` sets `hasMore` to `orders.length == limit`. With
  `limit = 0` that is always true (`HistoryLastPage`).

## Model

| member | source | states |
|---|---|---|
| Validation.IsValidEmailMatchesPattern | src/utils/validation.ts:2-5 | an address is accepted exactly when it splits as non-empty local part, `@`, non-empty domain label, `.`, non-empty tail, none containing whitespace or `@` |
| Validation.ValidEmailHasPattern | src/utils/validation.ts:2-5 | every accepted address has that split (the recogniser is sound) |
| Validation.PatternIsValidEmail | src/utils/validation.ts:2-5 | every address of that shape is accepted (the recogniser is complete) |
| Validation.IndexOf | src/utils/validation.ts:4 | the index found is the first occurrence of the character, and `None` means it does not occur |
| Validation.IsValidPhoneNumberMatchesPattern | src/utils/validation.ts:7-10 | a number is accepted exactly when it is an optional `+` followed only by digits, whitespace, `-`, `(`, `)`, and is at least 10 characters long |
| Validation.PhoneNumberMatchesPattern | src/utils/validation.ts:7-10 | every accepted number has that shape |
| Validation.PatternIsValidPhoneNumber | src/utils/validation.ts:7-10 | every number of that shape is accepted |
| Validation.PhoneNumberLength | src/utils/validation.ts:7-10 | an accepted number has at least 10 characters, and at least 9 of them follow a leading `+` |
| Validation.IsValidDateRange | src/utils/validation.ts:16-22 | the range is valid iff both dates parse, check-in is not before now and check-out is after check-in; a valid range is at least 1 ms long |
| QrGenerator.NatToDecimal | src/utils/qrGenerator.ts:23 | the decimal text of a number is non-empty and all digits |
| QrGenerator.DecimalRoundTrip | src/utils/qrGenerator.ts:23 | reading the decimal text back gives the number |
| QrGenerator.DecimalLength | src/utils/qrGenerator.ts:23 | a number in `[10^(k-1), 10^k)` has exactly k digits |
| QrGenerator.NoLeadingZero | src/utils/qrGenerator.ts:23 | a positive number's text does not start with `0` |
| QrGenerator.GenerateAccessPin | src/utils/qrGenerator.ts:22-24 | the PIN is six decimal digits, does not start with `0`, and its value is `100000 + draw` |
| QrGenerator.AccessPinInjective | src/utils/qrGenerator.ts:22-24 | distinct draws give distinct PINs |
| QrGenerator.GenerateAccessQRData | src/utils/qrGenerator.ts:26-35 | the payload carries the booking id, PIN and validity window it was given, stamped with the current time |
| Common.ToUpperIdempotent | src/services/paymentService.ts:432 | upper-casing twice is upper-casing once, the basis of case-insensitive status matching |
| Common.ToUpperAppend | src/services/paymentService.ts:432 | upper-casing distributes over concatenation |
| BookingService.FindAvailablePod | src/services/bookingService.ts:19-28 | the pod found is the first with the requested id and status `available`; `None` means no such pod exists |
| BookingService.SlotCasesAreOverlap | src/services/bookingService.ts:37-41 | for non-empty intervals, the three-disjunct conflict test equals the half-open overlap test |
| BookingService.UnconfirmedNeverBlocks | src/services/bookingService.ts:33-47 | adding a booking that is not `confirmed` never changes whether a new slot conflicts |
| BookingService.BilledHours | src/services/bookingService.ts:50-53 | the billed hours are the ceiling of the duration in hours, and at least 1 for any positive duration |
| BookingService.BilledHoursMonotone | src/services/bookingService.ts:50-53 | a longer stay is never billed fewer hours |
| BookingService.BilledWholeHours | src/services/bookingService.ts:50-53 | a stay of exactly n hours is billed n hours |
| BookingService.BookingStore.constructor | src/services/bookingService.ts:6 | a new store has the given pods, no bookings and no access codes |
| BookingService.BookingStore.ExactlyOneCode | src/services/bookingService.ts:56-83 | in a valid store each booking has exactly one access code, and it is active iff the booking is not cancelled |
| BookingService.BookingStore.CreateBooking | src/services/bookingService.ts:7-98 | invalid dates, a missing or unavailable pod, or a confirmed conflict each fail and change nothing; a failed access-code insert rolls back both rows; otherwise exactly one pending booking priced `ceil(hours) * price` is appended with one active access code for its window, PIN and QR payload |
| BookingService.BookingStore.ConfirmBooking | src/services/bookingService.ts:154-167 | only a pending booking with that id is confirmed; otherwise the call fails and nothing changes |
| BookingService.BookingStore.CancelBooking | src/services/bookingService.ts:169-202 | a booking matching both id and owner is cancelled and its access codes revoked; otherwise the call fails and nothing changes |
| BookingService.IndexWhere | src/services/bookingService.ts:155-160 | the index found satisfies the id, owner and pending filters of the UPDATE, and `None` means no booking does |
| BookingService.RevokeFor | src/services/bookingService.ts:188-193 | exactly the codes of the booking become `revoked`; all others are unchanged |
| BookingService.RevokeIdempotent | src/services/bookingService.ts:188-193 | revoking twice is revoking once |
| BookingService.StatusChangeKeeps | src/services/bookingService.ts:154-202 | a status change keeps booking ids fresh and distinct and intervals non-empty |
| BookingService.CancelKeepsCodes | src/services/bookingService.ts:169-202 | after a cancellation each code still matches its booking (active iff not cancelled) |
| PaymentRepository.BuildSetClause | src/repositories/paymentRepositories.ts:89-117 | the key is value 1; the i-th clause assigns the i-th requested column from placeholder `$(i+2)`, whose value is that column's converted value; skipped entries add neither |
| PaymentRepository.AssignmentsMembership | src/repositories/paymentRepositories.ts:94-115 | a column/value pair is assigned iff some entry carries that column with a value the loop does not skip (`undefined` and functions outside JSON columns are skipped) |
| PaymentRepository.AssignmentsBound | src/repositories/paymentRepositories.ts:94-117 | there are never more clauses than entries, and none when every entry is skipped |
| PaymentRepository.ApplySetIsAssign | src/repositories/paymentRepositories.ts:119-125 | executing the SET clause with its bound values performs exactly the requested assignments |
| PaymentRepository.AssignValue | src/repositories/paymentRepositories.ts:119-125 | after the assignments a column holds its last assigned value, or its old value if unassigned |
| PaymentRepository.AssignIdempotent | src/repositories/paymentRepositories.ts:119-125 | running the same update twice is running it once |
| PaymentRepository.UpdateRows | src/repositories/paymentRepositories.ts:119-125 | only rows with the given key change; each of those receives the assignments plus `updated_at = now` |
| PaymentRepository.ExecuteUpdate | src/repositories/paymentRepositories.ts:119-125 | running the built statement over a table is the key-filtered update |
| PaymentRepository.FindRow | src/repositories/paymentRepositories.ts:279-289 | the index found is the first row with the key, and `None` means there is none |
| PaymentRepository.CountRowsNone | src/repositories/paymentRepositories.ts:279-289 | a key carried by no row has count 0 |
| PaymentRepository.CountRowsOne | src/repositories/paymentRepositories.ts:279-289 | a key carried by exactly one row has count 1 |
| PaymentRepository.DefaultProvider | src/repositories/paymentRepositories.ts:19-23 | the provider returned is default and active; `None` means none is both |
| PaymentRepository.OrderRowKey | src/repositories/paymentRepositories.ts:65-83 | the stored order id and status are the ones supplied |
| PaymentRepository.OrderRowBooking | src/repositories/paymentRepositories.ts:68 | a missing or empty booking id is stored as NULL |
| PaymentRepository.OrderRowCharges | src/repositories/paymentRepositories.ts:79-81 | missing discount, tax and convenience fee are stored as 0 |
| PaymentRepository.TransactionRowGet | src/repositories/paymentRepositories.ts:206-230 | each inserted transaction column holds its converted supplied value |
| PaymentRepository.TransactionRowId | src/repositories/paymentRepositories.ts:207 | the stored transaction id is the one supplied |
| PaymentRepository.TransactionRowStatus | src/repositories/paymentRepositories.ts:214 | the stored payment status is the one supplied |
| PaymentRepository.TransactionRowPaymentId | src/repositories/paymentRepositories.ts:210 | the stored gateway payment id is the supplied one, or NULL when it is falsy |
| PaymentRepository.TransactionRowTime | src/repositories/paymentRepositories.ts:229 | a missing transaction time is stored as now |
| PaymentRepository.PaymentStore.constructor | src/repositories/paymentRepositories.ts:15 | a new store has the given providers and empty tables |
| PaymentRepository.PaymentStore.GetDefaultProvider | src/repositories/paymentRepositories.ts:19-23 | the lookup is the default-and-active provider of the table |
| PaymentRepository.PaymentStore.CreateOrder | src/repositories/paymentRepositories.ts:35-87 | exactly one order row built from the supplied fields is appended; other tables are unchanged |
| PaymentRepository.PaymentStore.GetOrderById | src/repositories/paymentRepositories.ts:129-141 | an order is returned iff some row has that id, and it is such a row |
| PaymentRepository.PaymentStore.UpdateOrder | src/repositories/paymentRepositories.ts:89-126 | with no clauses nothing is written; otherwise exactly the orders with that id receive the assignments; other tables are unchanged |
| PaymentRepository.PaymentStore.CreateTransaction | src/repositories/paymentRepositories.ts:168-237 | exactly one transaction row built from the supplied fields is appended |
| PaymentRepository.PaymentStore.UpdateTransaction | src/repositories/paymentRepositories.ts:239-276 | with no clauses nothing is written; otherwise exactly the transactions with that gateway payment id receive the assignments |
| PaymentRepository.PaymentStore.GetTransactionByPaymentId | src/repositories/paymentRepositories.ts:279-289 | a transaction is returned iff some row has that gateway payment id, and it is such a row |
| PaymentRepository.PaymentStore.SaveWebhook | src/repositories/paymentRepositories.ts:430-464 | one unprocessed webhook row with a fresh id is appended and that id is returned |
| PaymentRepository.PaymentStore.MarkWebhookProcessed | src/repositories/paymentRepositories.ts:466-469 | only the webhook with that id becomes processed |
| PaymentRepository.MarkProcessed | src/repositories/paymentRepositories.ts:466-469 | only the webhook with that id becomes processed, stamped now; every other one is unchanged |
| PaymentService.MapCashfreeOrderStatus | src/services/paymentService.ts:431-444 | the mapping is total, never yields a refund status, and maps a missing status to `created` |
| PaymentService.OrderStatusKeywords | src/services/paymentService.ts:431-444 | the result is active, paid, expired or cancelled exactly when the upper-cased input is ACTIVE, PAID, EXPIRED or CANCELLED |
| PaymentService.OrderStatusCaseInsensitive | src/services/paymentService.ts:431-444 | the order mapping ignores letter case |
| PaymentService.MapCashfreePaymentStatus | src/services/paymentService.ts:446-461 | the mapping is total, never yields `timeout`, and maps a missing status to `initiated` |
| PaymentService.PaymentStatusKeywords | src/services/paymentService.ts:446-461 | the result is success, failed, pending, user_dropped or cancelled exactly for the matching upper-cased keyword |
| PaymentService.PaymentStatusCaseInsensitive | src/services/paymentService.ts:446-490 | the payment, refund and payment-to-order mappings ignore letter case |
| PaymentService.MapCashfreeRefundStatus | src/services/paymentService.ts:463-476 | the refund status follows the payment keyword (SUCCESS to `successful`, default `initiated`) and is never `processed` |
| PaymentService.MapPaymentStatusToOrderStatus | src/services/paymentService.ts:478-490 | SUCCESS maps to paid, FAILED and USER_DROPPED to cancelled, PENDING to active, anything else to created; never expired or a refund status |
| PaymentService.DetermineRefundType | src/services/paymentService.ts:421-428 | the refund is partial exactly when `0 < amount < order amount`, and full otherwise |
| PaymentService.Entries | src/services/paymentService.ts:382-402 | the partial record lists the given keys in order with their values |
| PaymentService.EntriesAssignments | src/services/paymentService.ts:382-409 | the transaction update assigns a column iff it is a listed key whose value is not skipped |
| PaymentService.TransactionUpdateKeepsKeys | src/services/paymentService.ts:405-413 | the update keyed by the gateway payment id never changes any row's gateway payment id |
| PaymentService.TransactionUpdateNotEmpty | src/services/paymentService.ts:405-413 | the upsert's update always issues a statement |
| PaymentService.UpdateKeepsPaymentIdsUnique | src/services/paymentService.ts:405-409 | the update branch keeps gateway payment ids unique and every id's row count |
| PaymentService.AppendKeepsPaymentIdsUnique | src/services/paymentService.ts:410-413 | inserting a row for an absent id keeps ids unique, and the id then has exactly one row |
| PaymentService.UpsertKeepsPaymentIdsUnique | src/services/paymentService.ts:380-418 | the upsert keeps gateway payment ids unique, and afterwards a non-empty id has exactly one row |
| PaymentService.UpdatedRowCarriesRecord | src/services/paymentService.ts:382-409 | an updated row carries `TXN_` + payment id, the payment id and the mapped status |
| PaymentService.InsertedRowCarriesRecord | src/services/paymentService.ts:382-413 | an inserted row carries `TXN_` + payment id, the payment id and the mapped status |
| PaymentService.UpsertStoresRecord | src/services/paymentService.ts:380-418 | after the upsert some row carries the latest payload's id, transaction id and status |
| PaymentService.UpsertTransaction | src/services/paymentService.ts:380-418 | the transactions become the update-or-insert result, or stay unchanged when the store fails (the error is swallowed); no other table changes |
| PaymentService.StatusUpdateAssigns | src/services/paymentService.ts:110-115 | the order update assigns exactly the order status column |
| PaymentService.MarkNewest | src/services/paymentService.ts:191 | marking the just-saved webhook changes only that webhook |
| PaymentService.ApplyPayment | src/services/paymentService.ts:164-171 | the order gets the status mapped from the payment, then the transaction is upserted |
| PaymentService.RecordWebhook | src/services/paymentService.ts:150-191 | the webhook is saved first; the order and transactions are written only when both order and payment are present; the webhook is then marked processed, in that journal order |
| PaymentService.ProcessWebhook | src/services/paymentService.ts:135-196 | without a default provider or with a bad signature the call fails before anything is saved; otherwise it performs the recorded sequence and returns the webhook id |
| PaymentService.WebhookKeepsPaymentIdsUnique | src/services/paymentService.ts:164-171 | processing a webhook keeps gateway payment ids unique |
| PaymentService.GetPaymentStatus | src/services/paymentService.ts:98-132 | a missing order fails with no write; a failed gateway lookup fails with its message and no write; otherwise the gateway status is mapped and the order is written only when that status differs from the stored one |
| PaymentService.PollStoresStatus | src/services/paymentService.ts:110-115 | after the polling write the order holds the mapped status |
| PaymentService.CreateBookingPayment | src/services/paymentService.ts:17-96 | without a default provider, or when the gateway fails to create the order, the call fails and nothing is written; otherwise one order row from the booking request and gateway answer is appended and returned |
| PaymentService.BookingOrderRow | src/services/paymentService.ts:50-76 | the saved order has the generated id, the mapped gateway status and zero for absent charges |
| PaymentRepository.InsertNewest | src/repositories/paymentRepositories.ts:150 | inserting a row adds exactly that row to the list |
| PaymentRepository.InsertNewestSorted | src/repositories/paymentRepositories.ts:150 | inserting into a newest-first list keeps it newest first |
| PaymentRepository.OfUser | src/repositories/paymentRepositories.ts:149 | the rows kept are exactly the orders with that user id |
| PaymentRepository.UserOrders | src/repositories/paymentRepositories.ts:149-150 | the user's orders, each as often as in the table, sorted by creation time descending with NULL first |
| PaymentRepository.UserOrdersMembers | src/repositories/paymentRepositories.ts:149 | a row is among the user's orders iff it is an order of that user id, and there are as many as in the table |
| PaymentRepository.SuccessfulFor | src/repositories/paymentRepositories.ts:147-148 | the transactions kept are exactly those with the order's (non-NULL) id and status `success` |
| PaymentRepository.Joined | src/repositories/paymentRepositories.ts:145 | a result row has the order's columns and the joined transaction's status, method and time, NULL in those without one |
| PaymentRepository.JoinOrder | src/repositories/paymentRepositories.ts:145-148 | an order yields one row per joining transaction, or a single row when none joins; every row keeps the order's creation time and has status `success` or NULL |
| PaymentRepository.HistoryRows | src/repositories/paymentRepositories.ts:145-148 | the LEFT JOIN yields at least one row per order |
| PaymentRepository.HistoryRowsRanks | src/repositories/paymentRepositories.ts:145-150 | every joined row carries the creation time of one of the orders |
| PaymentRepository.HistoryRowsNewestFirst | src/repositories/paymentRepositories.ts:145-150 | joining keeps newest-first order |
| PaymentRepository.HistoryRowsOneToOne | src/repositories/paymentRepositories.ts:145-148 | when no order has two successful transactions, the rows are the orders one for one with the order columns unchanged |
| PaymentRepository.Window | src/repositories/paymentRepositories.ts:151 | a page holds at most `limit` rows, ends at `min(offset + limit, total)`, and its i-th row is row `offset + i` |
| PaymentRepository.OrdersByUserNewestFirst | src/repositories/paymentRepositories.ts:143-152 | a page of `getOrdersByUser` is newest first and each of its rows may precede every row of the later pages |
| PaymentService.PaymentHistory | src/services/paymentService.ts:341-359 | page and limit default to 1 and 20; the page is `getOrdersByUser` at offset `(page-1)*limit`; `total` is the page length; `hasMore` iff the page is full; a negative limit or offset fails |
| PaymentService.HistoryLastPage | src/services/paymentService.ts:352 | a page that is not full reaches the end of the user's joined orders, and limit 0 always reports more |
| PaymentService.OneOrder | src/repositories/paymentRepositories.ts:149-150 | a user's single order is the whole listing |
| PaymentService.TwoOrdersNewestFirst | src/repositories/paymentRepositories.ts:150 | of two orders, the later-created one is listed first whatever the table order |
| PaymentService.TiedOrdersLatestFirst | src/repositories/paymentRepositories.ts:150 | of two orders created at the same time, the one inserted later is listed first |
| PaymentService.JoinedHeadWithoutTransactions | src/repositories/paymentRepositories.ts:145-148 | with no transactions, the first joined row is the first order with NULL transaction columns |
| PaymentService.FirstPageOfOne | src/services/paymentService.ts:341-344 | page 1 of size 1 succeeds and is the first row of the query |
| PaymentService.HistoryShowsNewestFirst | src/services/paymentService.ts:341-344 | page 1 of size 1 of two orders holds the later-created one |
| PaymentService.PagesTile | src/services/paymentService.ts:343 | the first k pages of size `limit` tile the first `k*limit` rows |
| OtpRepository.OrNull | src/repositories/otpRepository.ts:30-41 | an optional text is stored iff it is truthy, unchanged |
| OtpRepository.OtpStore.CreateOtpRequest | src/repositories/otpRepository.ts:5-46 | one pending request with zero attempts, a fresh id and the supplied fields is appended |
| OtpRepository.ActiveOtp | src/repositories/otpRepository.ts:49-62 | the OTP returned is pending, unexpired, of the type and for the identifier, and none such was created later; `None` iff there is none |
| OtpRepository.ActiveOtpOnlyEligible | src/repositories/otpRepository.ts:49-62 | the lookup depends only on which requests are eligible |
| OtpRepository.ExpiryKeepsActive | src/repositories/otpRepository.ts:125-132 | the expiry sweep never changes the active OTP |
| OtpRepository.FindOpen | src/repositories/otpRepository.ts:70-80 | the row found has the id, is pending and unexpired; `None` means no row is |
| OtpRepository.AttemptOutcome | src/repositories/otpRepository.ts:85-116 | an attempt adds exactly one to the count and verifies iff the code matches; a mismatch fails iff it reaches the maximum, else stays pending; nothing else changes |
| OtpRepository.VerifyStepRows | src/repositories/otpRepository.ts:64-123 | verification touches only the one open row, and nothing when none is open |
| OtpRepository.VerifySucceedsIff | src/repositories/otpRepository.ts:64-123 | verification succeeds iff a pending, unexpired OTP with that id has that code |
| OtpRepository.ClosedNeverVerifies | src/repositories/otpRepository.ts:72 | an OTP that is no longer pending never verifies, and the call changes nothing |
| OtpRepository.VerifiesOnce | src/repositories/otpRepository.ts:93-103 | once an OTP has verified it can never verify again |
| OtpRepository.LastWrongAttemptLocks | src/repositories/otpRepository.ts:104-116 | a wrong code on the last allowed attempt locks the OTP for good |
| OtpRepository.VerifyKeepsAttemptsBounded | src/repositories/otpRepository.ts:85-116 | a pending OTP never has more attempts than allowed |
| OtpRepository.CreateKeepsAttemptsBounded | src/repositories/otpRepository.ts:5-46 | creating a request keeps attempt counts bounded |
| OtpRepository.ExpireKeepsAttemptsBounded | src/repositories/otpRepository.ts:125-132 | the expiry sweep keeps attempt counts bounded |
| OtpRepository.OtpStore.VerifyOtp | src/repositories/otpRepository.ts:64-123 | the table becomes the verification step, success is as characterised, and the OTP is returned only on success |
| OtpRepository.ExpireAll | src/repositories/otpRepository.ts:125-132 | exactly the pending OTPs with expiry at or before now become expired; none pending is then past expiry |
| OtpRepository.ExpireAllIdempotent | src/repositories/otpRepository.ts:125-132 | sweeping twice is sweeping once |
| OtpRepository.OtpStore.MarkExpiredOtps | src/repositories/otpRepository.ts:125-132 | the table becomes the sweep of the old table |
| OtpRepository.Retained | src/repositories/otpRepository.ts:166-173 | the kept requests are exactly those created at or after the cutoff, and the rest are counted |
| OtpRepository.RetainedKeepsOrder | src/repositories/otpRepository.ts:166-173 | deletion keeps ids increasing |
| OtpRepository.OtpStore.CleanOldOtps | src/repositories/otpRepository.ts:166-173 | exactly the requests created before `now - hours` (default 24) are deleted and their number returned |
| VerificationRepository.LatestFor | src/repositories/verificationRepositories.ts:19-24 | the record returned is the user's most recently created one; `None` iff the user has none |
| VerificationRepository.CreatedIsLatest | src/repositories/verificationRepositories.ts:27-43 | a record created for a user with none is that user's latest |
| VerificationRepository.VerificationStore.GetOrCreateVerification | src/repositories/verificationRepositories.ts:6-50 | an existing latest record is returned without writing; otherwise exactly one pending record is created; either way it is the user's latest |
| VerificationRepository.NewVerification | src/repositories/verificationRepositories.ts:27-43 | a new record is pending for the user with no identity data, no notes and no OTP or verification times; IP address and user agent are stored when truthy and NULL otherwise; device info and expiry as given; created and updated now |
| VerificationRepository.VerificationStore.Insert | src/repositories/verificationRepositories.ts:27-43 | one record with the next id is appended |
| VerificationRepository.FindById | src/repositories/verificationRepositories.ts:153-157 | the record returned has the id; `None` means no record does |
| VerificationRepository.FindByRefId | src/repositories/verificationRepositories.ts:160-164 | the record returned has the reference id; `None` means no record does |
| VerificationRepository.UpdateRows | src/repositories/verificationRepositories.ts:52-138 | an update changes only the record with that id and keeps every id and owner |
| VerificationRepository.OtpGenerationRecords | src/repositories/verificationRepositories.ts:57-68 | OTP generation sets the Aadhaar number, reference id, generation time and `in_progress`, and nothing else |
| VerificationRepository.VerificationStore.UpdateAadharOtpGeneration | src/repositories/verificationRepositories.ts:52-69 | the table becomes the OTP-generation update of that record |
| VerificationRepository.PincodeText | src/repositories/verificationRepositories.ts:106 | a pincode is stored as its decimal text, and a missing one as NULL |
| VerificationRepository.AadharVerifiedStatus | src/repositories/verificationRepositories.ts:76-110 | verification stores the identity and time, and the status is `verified` iff a selfie exists, else `in_progress` |
| VerificationRepository.VerificationStore.UpdateAadharVerificationData | src/repositories/verificationRepositories.ts:71-116 | the table becomes the Aadhaar-verification update of that record |
| VerificationRepository.ImageUploadWrites | src/repositories/verificationRepositories.ts:123-132 | a selfie or Aadhaar image URL is written to its own column; the status becomes `verified` only when the pre-update row had a name and a selfie, else stays |
| VerificationRepository.FirstSelfieNotPromoted | src/repositories/verificationRepositories.ts:123-132 | the first selfie upload leaves an in-progress record in progress, and the next upload verifies it |
| VerificationRepository.VerificationStore.UpdateImageUrl | src/repositories/verificationRepositories.ts:118-138 | the table becomes the image-upload update of that record |
| VerificationRepository.StatusSetCoalesces | src/repositories/verificationRepositories.ts:172-182 | the status is always set; notes and remarks change only when given; nothing else changes |
| VerificationRepository.VerificationStore.UpdateStatus | src/repositories/verificationRepositories.ts:166-183 | the table becomes the status update of that record |
| VerificationRepository.VerificationStore.LogAttempt | src/repositories/verificationRepositories.ts:184-208 | exactly one attempt is appended, with a falsy error message stored as NULL |
| VerificationRepository.AttemptsCountAppend | src/repositories/verificationRepositories.ts:211-222 | appending an attempt adds one to the count exactly when it belongs to the verification and, if a type is given, has that type |
| VerificationRepository.AttemptsCountOfType | src/repositories/verificationRepositories.ts:211-222 | the count of one type never exceeds the count of all types |
| VerificationRepository.ExpireStale | src/repositories/verificationRepositories.ts:284-294 | exactly the pending or in-progress records past expiry become expired; none is then stale |
| VerificationRepository.NoneStaleCount | src/repositories/verificationRepositories.ts:284-294 | with no stale record the clean-up count is 0 |
| VerificationRepository.CleanupIdempotent | src/repositories/verificationRepositories.ts:284-294 | a second clean-up finds nothing and changes nothing |
| VerificationRepository.VerificationStore.CleanupExpired | src/repositories/verificationRepositories.ts:284-294 | the table becomes the clean-up result and the count of expired records is returned |
| VerificationRepository.BuildConditions | src/repositories/verificationRepositories.ts:233-247 | the i-th present filter becomes a condition on placeholder `$(i+1)` bound to its value, and the next index follows the last |
| VerificationRepository.BuildFindAll | src/repositories/verificationRepositories.ts:225-281 | filters take `$1..$n` in order, LIMIT and OFFSET take `$(n+1)` and `$(n+2)` with defaults 50 and 0, and the sort defaults to `created_at` descending |
| VerificationRepository.FindAllTotal | src/repositories/verificationRepositories.ts:255-263 | the total is 0 iff no record passes the filters |
| VerificationService.NextStep | src/services/verificationService.ts:357-371 | the next step is decided in order: no Aadhaar number, not verified, no selfie, status verified or not; each step holds exactly under its condition |
| VerificationService.CompleteIsLastStep | src/services/verificationService.ts:348-371 | a complete verification is at its last step, and at that step completeness is having a verified name |
| VerificationService.StepsAdvance | src/services/verificationService.ts:357-371 | each repository update moves the workflow past the step it answers |
| VerificationService.AadharVerifiedCompletes | src/services/verificationService.ts:348-355 | Aadhaar verification completes a record iff the provider gave a name and a selfie exists |
| VerificationService.StatusMessageInjective | src/services/verificationService.ts:373-382 | distinct statuses have distinct messages |
| VerificationService.MaskAadhar | src/services/verificationService.ts:384-387 | a 12-character number becomes 8 `*` and its last 4 characters; any other length is unchanged; the length is kept |
| VerificationService.MaskIdempotent | src/services/verificationService.ts:384-387 | masking twice is masking once |
| VerificationService.MaskHidesPrefix | src/services/verificationService.ts:384-387 | two numbers with the same last four digits mask the same |
| VerificationService.TotalPages | src/services/verificationService.ts:297 | the page count is the ceiling of total over limit, and 0 only when there are no rows |
| VerificationService.HistoryPagination | src/services/verificationService.ts:271-306 | the limit is `min(limit or 20, 100)`, the offset `(page-1)*limit`, the page count the ceiling of total over limit, `has_next` iff `page*limit < total` and `has_previous` iff `page > 1` |
| VerificationService.MoreRowsIffEarlierPage | src/services/verificationService.ts:297-298 | rows remain after a page iff it is before the last page |
| VerificationService.HasNextIffLaterPage | src/services/verificationService.ts:297-298 | `has_next` holds iff the page is before the last page |
| VerificationService.VerificationStatusOf | src/services/verificationService.ts:232-268 | with no record the answer is pending, no id, start_verification; otherwise the latest record's id, status, next step and completeness, with the status's message |
| VerificationService.FoundFirst | src/repositories/verificationRepositories.ts:153-157 | the lookup by id finds the first record with that id |
| VerificationService.UpdatedFound | src/repositories/verificationRepositories.ts:52-138 | after an update, the lookup of the updated record returns the updated version |
| VerificationService.RefIdLookupKept | src/services/verificationService.ts:106-131 | updates other than OTP generation never change which record a reference id finds |
| VerificationService.LogFailure | src/services/verificationService.ts:146-151 | a failure with a known reference id appends one unsuccessful attempt; an unknown one logs nothing |
| VerificationService.VerifyAadharOtpCall | src/services/verificationService.ts:101-185 | an unknown or foreign reference id or an expired OTP fails; too many attempts rejects the record; a provider error fails; success verifies the record; each failure with a known id logs one failed attempt and success one successful attempt |
| VerificationService.GenerateAadharOtpCall | src/services/verificationService.ts:39-98 | the record is fetched or created; a provider error writes nothing more; success records the OTP generation and answers with the reference id and next step verify_aadhar_otp |
| VerificationService.UploadVerificationImage | src/services/verificationService.ts:188-229 | the record is fetched or created, the image URL written, one successful upload attempt logged, and the response reports the resulting completeness and next step |
| PodService.AmenityPlaceholders | src/services/podService.ts:30-41 | amenity i is inserted from placeholders `$1` and `$(i+2)` |
| PodService.AmenityInsertRows | src/services/podService.ts:30-41 | one amenity row per given amenity, in order, for the pod |
| PodService.WithoutPod | src/services/podService.ts:119-136 | the deletion removes exactly the pod's amenity rows |
| PodService.PodCatalog.constructor | src/services/podService.ts:5 | a new catalogue is empty |
| PodService.PodCatalog.CreatePod | src/services/podService.ts:6-51 | invalid coordinates fail before any insert; otherwise one available pod with the next id and every requested field (number, description, location, address, coordinates, price, capacity) and its amenity rows are appended |
| PodService.BuildPodUpdate | src/services/podService.ts:53-107 | each truthy field adds one clause with consecutive placeholders bound to its value(s), coordinates as (longitude, latitude) only when both are truthy and valid, and the pod id is last at placeholder `$n` |
| PodService.AddClause | src/services/podService.ts:61-97 | one field block extends the plan by exactly that field's clause and values |
| PodService.AddIdentityClauses | src/services/podService.ts:61-84 | the first four field blocks produce the planned clauses and values |
| PodService.AddPlaceClauses | src/services/podService.ts:85-97 | the remaining field blocks complete the plan |
| PodService.PlanBuilt | src/services/podService.ts:61-97 | the planned clauses are consecutive, in field order, and bind every requested field |
| PodService.FinishBuild | src/services/podService.ts:99-100 | appending the pod id keeps every binding and puts the id at the next placeholder |
| PodService.BoundAfterAdd | src/services/podService.ts:61-97 | adding a clause binds the new column to its values and leaves the others' bindings unchanged |
| PodService.EmptyItemsIffNoFields | src/services/podService.ts:102-142 | no clause is built iff the request has no field to update |
| PodService.ExecuteSetMatchesRequest | src/services/podService.ts:103-114 | executing the built SET clause applies exactly the requested changes |
| PodService.ExecuteUpdate | src/services/podService.ts:103-114 | the updated pod is the requested change of the old one |
| PodService.ApplyRequestKeeps | src/services/podService.ts:85-89 | an update keeps the pod id and never makes valid coordinates invalid |
| PodService.PodCatalog.UpdatePod | src/services/podService.ts:53-149 | no fields fails with no change; an unknown pod fails with no change; otherwise only that pod is updated, and given amenities replace its amenity rows |
| PodService.ReplacePodKeeps | src/services/podService.ts:103-114 | replacing a pod keeps ids fresh and distinct, coordinates valid and amenity rows referring to pods |
| PodService.ReplaceRowsKeeps | src/services/podService.ts:119-136 | replacing amenity rows keeps them referring to existing pods |
| PodService.PodCatalog.IndexOfPod | src/services/podService.ts:103-114 | the index found holds the pod with that id; `None` means there is none |
| PodService.BuildNearbyQuery | src/services/podService.ts:211-279 | invalid coordinates fail; two truthy dates that form an invalid range fail; otherwise the parameters are (longitude, latitude, range*1000), then both dates at `$4`/`$5` when given, then the capacity at `$4` or `$6` when truthy |

## Left out

- Gateway and identity-provider SDK calls: their answers, the webhook signature check and all generated identifiers are parameters.
- SMS and email delivery, password hashing, JWT, the HTTP layer, file upload and the database pool: these are I/O with no state decisions of the core.
- Concurrency: each transaction is one atomic step, so the missing row lock in `createBooking` and the check-then-act race in `upsertTransaction` are not modelled.
- `createPaymentLink` and `createRefund`: they forward to the gateway and insert its answer; only `determineRefundType` and the refund status mapping are modelled.
- The post-payment handlers `handlePaymentSuccess` and its siblings only log, and `getPaymentsByBooking` is a placeholder: not modelled.
- `generateQRCode` renders an image, and JSON and ISO-date serialisation are library calls: JSON values are opaque tags and dates are integers.
- `getBookingById`, `getUserBookings`, `getPodById`, `getAllPods`, `getProviderById`: JOIN and aggregate reads that decide no state.
- OtpRepository.OtpStore.CreateOtpRequest: the provider response is modelled as already-stringified text stored when truthy; the source tests the raw value and then applies `JSON.stringify`, so an object response, or a falsy non-string such as the number 0, is not captured.
- VerificationService.MaskAadhar: the twelve-character test counts characters rather than UTF-16 code units; the service's calls of `maskAadharNumber` are commented out, so no response exposes it.
- `getOrdersByUser`: the `JSON.parse` of the JSON columns of each result row is not modelled, since JSON values are opaque tags; the row order among joined rows of one order follows the transactions table.
- `logOTPDelivery`, `findByUserId`, `updateVerificationStatus`, `cleanupExpiredVerifications` and `mapToUserVerification`: thin wrappers or row-to-object mappings over operations that are modelled.
- `findAll`: row ordering, the users JOIN and the interpolated sort column are not modelled; only its parameters and the filter count are.
- `getPodsNearUser`: the PostGIS distance test and the result rows are not modelled; only its guards and parameter list are.
- Database errors other than the two modelled store failures, and the values produced by sequences and `gen_random_uuid()`, are not modelled; uuid and serial keys are one natural-number key.
- Floating point: prices and hours are integers in minor units and milliseconds, and coordinates are exact reals, so NaN and rounding are not modelled.
- `findByRefId` has no ORDER BY: which of several records with one reference id it returns is open; the model returns the first in table order, and its contract promises only some such record.
- Ties in `ORDER BY created_at DESC`: the query leaves their order open; among records created at the same instant, the latest-record lookups return the one inserted last, and the order listing puts it first.
- Common.ToUpper: models the ASCII letters and the non-ASCII characters whose upper case is all ASCII (sharp s, dotless i, long s and the ligatures U+FB00 to U+FB06); other Unicode case mappings come out unchanged. No other character's upper case is all ASCII, so this does not change which inputs match a status keyword.
- Validation.IsValidCoordinates: the latitude/longitude range test is the predicate's definition and has no separate contract; the pod guards that use it state their behaviour in terms of it.
- PaymentService.PaymentHistory: `total` is the length of the page, as in the source, not the number of the user's orders.
- BookingService.BookingStore.ConfirmBooking: like the source, it does not re-check slot conflicts, so the store does not keep an "at most one confirmed booking per slot" invariant.
- PaymentService.UpsertStoresRecord: an empty gateway payment id is not covered, because the insert then stores NULL and the row carries no key.
