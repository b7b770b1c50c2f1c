# Dafny model of the booking backend

A teacher-marketplace backend lets students book lessons in a teacher's weekly
availability, pays for them through a provider that reports back by webhook, keeps a
ledger of what each teacher earned, and pays that ledger out in batches.  Around it sit
reviews, disputes, accounts with rotating sessions, and a library of teaching resources.
This project models the parts where those pieces meet and proves what they promise.

`dafny verify dfyconfig.toml` checks everything.

## How it is laid out

| files | what they hold |
|---|---|
| `UtcClock`, `Text`, `Options`, `Sorting`, `Sums` | instants and days, `strings.TrimSpace`, result types, what `sort.Slice` promises, SQL sums |
| `Intervals`, `Projection`, `Slots`, `SlotTheorems` | the slot engine: projection, merge, stepping, re-check, and how they relate |
| `Availability` | the weekly-set validator and its service |
| `Tables`, `Webhooks`, `Money`, `BookingRules` | the rows and, as functions on them, what each event and each call means |
| `Repository`, `PaymentService`, `BookingService`, `PayoutRun` | the same calls as classes that change fields step by step, each proved to have that meaning |
| `WebhookSafety` | what survives arbitrary webhook deliveries |
| `Clearing` | captured money waits out the clearing days |
| `Lifecycle`, `LifecycleRuns`, `MoneyOutcomes`, `CallOutcomes`, `Refusals`, `Retries`, `Cancellations`, `Calendar` | what holds over every run of service calls driven by the fake provider, and what each call leaves or answers |
| `Payouts`, `PayoutProtocol`, `LedgerViews` | one payout run, concurrent runs, and the three readings of the ledger |
| `Ratings`, `Disputes`, `DisputeOutcomes`, `Annotations` | the derived rating, reviews and disputes, and the flags that announce them |
| `Sessions`, `SessionChains`, `AuthOutcomes` | accounts, refresh rotation and link tokens |
| `ResourceContent`, `ResourceIds`, `ResourceRefusals` | the content normalizer, the ids it fills in, what it refuses and why |

## Reading the model

- Instants are whole nanoseconds since 1970 in UTC; a day is the floor over 24 hours.
  `now`, `from` and `to` need not be aligned to anything.
- The money has two layers.  Under arbitrary deliveries (`WebhookSafety`) payment status
  is unguarded and only the ledger's own guards survive.  Under service calls and the fake
  provider (`Lifecycle` onwards) the stronger joint invariant holds.  A service call is
  one step, except that completing and a no-show may stop at a failing booking write.  One
  process lifetime is covered, because the provider's counter restarts with it.
- In runs that include reviews and disputes, an operator refund without a cancellation
  happens only when a dispute is resolved, as in the program.
- A payout run is three steps (lock, commit or abort) that interleave with refunds,
  captures and the clock.  A locked row is skipped by other runs; a refund of it waits and
  re-checks its guard.
- Clock readings, generated ids, failing writes and failing intent inserts are parameters.

## Where prose and code differ

The code is followed.

- `backend/README.md:272-275` says earnings are available at once.  The code derives
  availability from the clearing deadline (`backend/internal/payments/payments.go:234-248`).
- `backend/README.md:341-344` describes an incremental rating.  The code rebuilds it from
  the baseline (`backend/internal/db/sqlc/reviews.sql.go:388-408`).
- `backend/internal/bookings/service.go:375-377` says paying re-tries a missing intent.  It
  answers payment_required (`CallOutcomes.NoIntentNoPayment`).
- `backend/README.md:237-238` says booking re-runs the listing's exact check.  The grids can
  differ for a start more than a day into a window that begins off the half hour
  (`SlotTheorems.ListedButRefused`, and `SlotTheorems.AgreementExact` for exactly when).

## Model

| member | source | states |
|---|---|---|
| `Intervals.MergeIntervals` | backend/internal/bookings/bookings.go:247-265 | From any bag of non-empty ranges, a sorted list with a gap between any two neighbours that covers exactly the same instants. |
| `Intervals.NormalFormUnique` | backend/internal/bookings/bookings.go:244-265 | Such a list is determined by what it covers, so the order an unstable sort leaves equal starts in never shows. |
| `Intervals.NormalFormWindows` | backend/internal/bookings/bookings.go:244-265 | The merged windows are exactly the maximal runs of covered instants. |
| `Intervals.MergeDependsOnCoverOnly` | backend/internal/bookings/bookings.go:247-265 | Cutting the same cover into other ranges changes nothing in the merged result. |
| `Intervals.CheckOverlap` | backend/internal/bookings/bookings.go:267-274 | The scan answers true exactly when some booked half-open range meets [start, end). |
| `Projection.ProjectSpans` | backend/internal/bookings/bookings.go:221-242 | What is projected covers exactly the instants, from the midnight before the day of `from` to the second midnight after that of `to`, that lie in a span of some week, weeks counted from Sunday 1970-01-04. |
| `Projection.WeeklyOpenCountedOut` | backend/internal/bookings/bookings.go:221-242 | Being open on its own UTC weekday is, for every instant, lying in [midnight + start, midnight + end) of day 3 + 7n + weekday for some integer n: the weekday arithmetic is right for every day, before 1970 as well. |
| `Projection.SameMinutesSameOpen` | backend/internal/bookings/bookings.go:221-242 | Two weekly sets over the same (weekday, minute) pairs are open at the same instants, however the spans are split or joined. |
| `Slots.StepWindow` | backend/internal/bookings/bookings.go:299-313 | Stepping one window adds exactly its grid starts that fit, clear the clock and the query and meet no booking. |
| `Slots.FreshKey` | backend/internal/bookings/bookings.go:297-311 | The `seen` map, keyed on Unix seconds, never already holds the start being looked at, so it rejects nothing. |
| `Slots.BookableByWindow` | backend/internal/bookings/bookings.go:276-316 | Bookable in the weekly meaning (open throughout, on the 30-minute grid of its run, not past, inside the query, no clash) is the same as on the grid of one maximal projected window. |
| `Slots.BookableCountedOut` | backend/internal/bookings/bookings.go:276-316 | Bookable said without weekdays or windows: every instant of the lesson lies in a span of some week, the start is whole half hours after its open run began, looking back to the midnight before the first day, and nothing is past, outside the query or taken. |
| `Slots.GenerateSlots` | backend/internal/bookings/bookings.go:282-316 | The answer holds a start if and only if it is bookable, both in the weekly meaning and counted out from Sunday 1970-01-04 without naming a weekday; starts increase by at least 30 minutes; every slot has the asked length and price. |
| `Slots.IsBookableStart` | backend/internal/bookings/bookings.go:320-333 | The re-check accepts a start exactly when it is bookable in its own one-slot query, again also without naming a weekday. |
| `SlotTheorems.ListingUnique` | backend/internal/bookings/bookings.go:282-316 | A slot query has one answer. |
| `SlotTheorems.SameWeeklyMinutesSameSlots` | backend/internal/bookings/bookings.go:244-316 | Weekly sets covering the same weekly minutes, split at midnight or anywhere else, give identical slot lists. |
| `SlotTheorems.FetchLosesNothing` | backend/internal/db/sqlc/bookings.sql.go:344-352 | Reading only the live bookings that overlap the query window misses no clash of any start inside it. |
| `SlotTheorems.AgreementExact` | backend/internal/bookings/bookings.go:218-333 | For a start inside the query window, listing and re-check agree if and only if the start is not both otherwise free and on a grid that begins off the half hour before the re-check's padded day. |
| `SlotTheorems.ListingAgreesWithRecheck` | backend/internal/bookings/bookings.go:218-333 | When all spans start on half hours, or the stitched window starts at most 24 hours earlier, a future start is listed exactly when it is inside the window and the re-check accepts it. |
| `SlotTheorems.ListedButRefused` | backend/internal/bookings/bookings.go:218-333 | Without that proviso they differ: with Monday 00:15 to Wednesday 24:00 open, Wednesday 12:15 is listed from Monday and refused by the re-check. |
| `SlotTheorems.SlotCountBound` | backend/internal/bookings/service.go:263-279 | No answer within the 21-day cap has more than 1008 slots. |
| `SlotTheorems.HourlyPrice` | backend/internal/bookings/bookings.go:209-214 | The price is within half a minor unit of rate*minutes/60, ties up. |
| `Availability.ValidateSlots` | backend/internal/availability/availability.go:72-109 | Accepts exactly the sets of at most 100 well-formed, grid-aligned slots that are pairwise apart per weekday; a refusal names the first malformed slot and the first of its faults, or a weekday on which two slots really overlap. |
| `Availability.FaultlessIsValid` | backend/internal/availability/availability.go:77-94 | A slot passes the field checks if and only if it has none of the five faults they name. |
| `Availability.DayOverlaps` | backend/internal/availability/availability.go:97-107 | Sorting one weekday and comparing neighbours finds an overlap exactly when some pair overlaps. |
| `Availability.SortThenAdjacent` | backend/internal/availability/availability.go:97-107 | In any order sorted by start, neighbours apart is the same as all pairs apart. |
| `Availability.ScanBuckets` | backend/internal/availability/availability.go:97-108 | Visiting the weekday buckets in any order decides the whole set. |
| `Availability.CanonicalUnique` | backend/internal/availability/availability.go:111-119 | All permutations of an accepted set have one strictly ordered form. |
| `Availability.AcceptanceIgnoresOrder` | backend/internal/availability/availability.go:72-109 | Acceptance does not depend on the order the slots were sent in. |
| `Availability.Service.Replace` | backend/internal/availability/service.go:73-93 | Unknown slug, foreign owner and bad sets (with a fault they really have) are refused with nothing changed; otherwise the stored set becomes the permutation of the input in which each slot is on an earlier day than the next or over before it begins. |
| `Availability.Service.GetBySlug` | backend/internal/availability/service.go:53-66 | Reads back exactly the stored list. |
| `Repository.Store.ApplyEvent` | backend/internal/payments/repository_postgres.go:142-229 | One event as one transaction on the tables: the event row first, then the payment, booking and ledger statements of its type; a first capture opens a row due the clearing days later; replay, unknown payment and unknown type leave every table as it was. |
| `Repository.Store.EnsurePayment` | backend/internal/payments/repository_postgres.go:73-84 | Opens an intent for a booking, or keeps the one already there. |
| `Repository.Store.InsertPaymentEvent` | backend/internal/db/sqlc/payments.sql.go:195-211 | A known id is a unique violation, an unknown payment a foreign-key violation, anything else is recorded. |
| `Repository.Store.InsertLedgerHeld` | backend/internal/db/sqlc/payments.sql.go:162-172 | Copies teacher from the booking, never overwrites a row. |
| `Repository.Store.MarkLedgerReversed` | backend/internal/db/sqlc/payments.sql.go:262-266 | Reverses an open row only. |
| `Repository.Store.ConfirmBookingForPayment` | backend/internal/db/sqlc/payments.sql.go:15-19 | Confirms a pending booking only. |
| `Repository.Store.BookedIntervals` | backend/internal/db/sqlc/bookings.sql.go:344-352 | Exactly the ranges of the teacher's live bookings that overlap the window. |
| `Repository.Store.InsertBooking` | backend/migrations/000004_bookings.up.sql:40-55 | Inserts unless a live booking of the same teacher or the same student overlaps. |
| `Webhooks.ExactlyOnce` | backend/internal/payments/repository_postgres.go:142-229 | Any sequence of deliveries, mixed with new intents, other booking writes and payout runs, leaves all tables as the sequence keeping only each id's first accepted delivery, and the log gains exactly those ids. |
| `Webhooks.KeptAreApplied` | backend/internal/payments/repository_postgres.go:142-229 | Every delivery kept by that filter is applied when its turn comes. |
| `Webhooks.RefusedThenAccepted` | backend/internal/payments/repository_postgres.go:151-166 | A delivery refused for an unknown payment leaves no trace and is applied once the intent exists. |
| `Webhooks.EventOutcome` | backend/internal/payments/repository_postgres.go:142-229 | Exactly when an event is applied, a duplicate, or for an unknown payment, and every column it writes: status, reference, error and time stamps of its payment, confirmation of a pending booking, a held row due after the clearing days, reversal of an open row; all else stands. |
| `Money.WebhookAnswer` | backend/internal/payments/service.go:169-180 | Refused as malformed, unknown payment, or accepted, each exactly when; an accepted event is on record, and a known one changes nothing. |
| `Clearing.CaptureHoldsTheMoney` | backend/internal/db/sqlc/payments.sql.go:162-172 | A captured event that opens a row leaves it held and not payable at every instant before the clearing days are over, available and payable at every one from then on. |
| `Clearing.DeadlineIsCapturePlusClearing` | backend/internal/payments/repository_postgres.go:189-203 | In every reachable state each ledger row has a captured payment, and its deadline is that capture plus the clearing days. |
| `Clearing.NeverPaidEarly` | backend/internal/db/sqlc/payouts.sql.go:314-365 | Whenever a row turns paid in a run of calls, the call was a payout run and the clearing days since the money's capture had passed. |
| `WebhookSafety.RunSound` | backend/internal/payments/repository_postgres.go:177-219 | Under any sequence of deliveries, intents, booking writes and payout runs: a ledger row exists if and only if captured_at is set, captured implies a row, refunded implies the row is not open, batches balance; rows keep amount, teacher and deadline, and paid or reversed rows never change. |
| `WebhookSafety.EffectIsLocal` | backend/internal/payments/repository_postgres.go:177-219 | An event touches only its own payment, booking and ledger row and no amount. |
| `WebhookSafety.CapturedMoneyIsAccountedFor` | backend/internal/db/sqlc/payments.sql.go:162-172 | The amounts of all payments ever captured sum to held + available + paid + reversed at any instant. |
| `WebhookSafety.PaidStaysPaid` | backend/internal/db/sqlc/payments.sql.go:262-266 | No run of deliveries, refunds included, un-pays a row. |
| `Payments.WebhookEntry.HandleWebhook` | backend/internal/payments/service.go:169-180 | Malformed events are refused untouched; a well-formed one is applied once; a duplicate is not an error. |
| `Payments.FakeProvider.Authorize` | backend/internal/payments/fake_provider.go:56-87 | A declined token records the failure and hands out no reference; any other token gets the next numbered reference and its authorized event. |
| `Payments.FakeProvider.Capture` | backend/internal/payments/fake_provider.go:91-115 | Unknown references fail; the first capture of a capture-fail token fails and is remembered; otherwise the captured event of that reference's payment. |
| `Payments.FakeProvider.Refund` | backend/internal/payments/fake_provider.go:118-138 | Unknown references fail; otherwise the refunded event of that reference's payment. |
| `Payments.PaymentService.Authorize` | backend/internal/payments/service.go:52-84 | Refuses missing, held, captured and refunded intents; otherwise the provider's outcome. |
| `Payments.PaymentService.Capture` | backend/internal/payments/service.go:90-111 | A captured payment is left alone, only an authorized one is captured. |
| `Payments.PaymentService.Refund` | backend/internal/payments/service.go:118-150 | Nothing to undo without an intent; unpaid intents are voided, held or captured ones refunded. |
| `MoneyOutcomes.AuthorizeWrites` | backend/internal/payments/service.go:52-84 | In a reachable state, exactly what paying writes: the next reference with its token and payment, the authorized payment row, the event, the confirmed booking. |
| `MoneyOutcomes.CaptureWrites` | backend/internal/payments/service.go:90-111 | Exactly what a capture writes: the stamped payment, one held row for the booking's teacher and price due after the clearing days, the event, the remembered attempt. |
| `MoneyOutcomes.RefundWrites` | backend/internal/payments/service.go:118-150 | Exactly what a refund writes in each status: held or captured money refunded and an open row reversed, an idle intent voided once, nothing for a refunded one. |
| `Bookings.BookingService.Slots` | backend/internal/bookings/service.go:252-307 | Clamps, defaults and caps the window and the length, and answers exactly the starts open to the weekly set that no live booking of the teacher meets. |
| `Bookings.RecheckCoversTeacherGuard` | backend/internal/bookings/service.go:348-372 | The re-check against the fetched bookings already excludes every clash the teacher-side constraint would reject. |
| `Bookings.BookingService.Create` | backend/internal/bookings/service.go:311-384 | Same checks, errors and order; the teacher-side exclusion constraint never decides: slot_taken is reported only for a busy student. |
| `Bookings.BookingService.Pay` | backend/internal/bookings/service.go:467-508 | The call's whole effect on the tables and the provider, and its error. |
| `Bookings.BookingService.Complete` | backend/internal/bookings/service.go:518-546 | Capture first, then the status; a failing status write leaves the captured money and a confirmed booking. |
| `Bookings.BookingService.Cancel` | backend/internal/bookings/service.go:554-566 | Participant check, state check, then the one cancellation path. |
| `Bookings.BookingService.AdminForceCancel` | backend/internal/bookings/service.go:582-592 | The same path without the participant check, refund optional. |
| `Bookings.BookingService.AdminRefund` | backend/internal/bookings/service.go:599-611 | Money back, booking rows untouched. |
| `Bookings.BookingService.DoCancel` | backend/internal/bookings/service.go:620-641 | The cancellation is written before the refund; a failing refund changes neither the outcome nor the row. |
| `Bookings.BookingService.NoShow` | backend/internal/bookings/service.go:676-727 | Student missing takes the capture path, teacher missing the cancel path, with the flag written where the source writes it, and every failing write leaves what was written before it. |
| `CallOutcomes.CreateOutcome` | backend/internal/bookings/service.go:311-384 | Succeeds if and only if the lesson is offered (length or trial, future start, open throughout, on the grid), the student is not the teacher, and neither side is busy; then one pending booking and its intent at the price appear and nothing else changes. |
| `Refusals.CreateRefusals` | backend/internal/bookings/service.go:311-384 | Each refusal of a booking request and the order they come in, from rows and clock alone; a refusal changes nothing. |
| `CallOutcomes.PayOutcome` | backend/internal/bookings/service.go:467-508 | In a reachable state paying succeeds if and only if the caller is the student of a pending booking with an intent and the trimmed token is not the declining one; then booking confirmed, payment authorized, nobody else's money moved. |
| `Refusals.PayRefusals` | backend/internal/bookings/service.go:467-508 | In a reachable state, which refusal paying gets and when; only a decline writes anything, the failed intent with the card's message, once. |
| `CallOutcomes.NoIntentNoPayment` | backend/internal/payments/service.go:52-56 | A booking whose intent was never stored answers payment_required, contrary to the comment on re-trying it. |
| `CallOutcomes.PayAfterVoid` | backend/internal/payments/service.go:130-141 | After an operator refund has voided an intent without money, paying succeeds if and only if the booking is still pending, the caller is its student and the token is not the declining one. |
| `CallOutcomes.CancelOutcome` | backend/internal/bookings/service.go:554-649 | Succeeds if and only if a participant cancels a pending or confirmed booking; names the canceller, refunds held or captured money, reverses an open ledger row, leaves a paid one. |
| `Refusals.CancelRefusals` | backend/internal/bookings/service.go:554-611 | Which refusal each of the three cancellation and refund calls gets and when. |
| `CallOutcomes.ForceCancelOutcome` | backend/internal/bookings/service.go:582-641 | Succeeds if and only if pending or confirmed; without refund no money moves. |
| `CallOutcomes.AdminRefundOutcome` | backend/internal/bookings/service.go:594-611 | Succeeds for every existing booking, leaves booking rows alone, returns the money. |
| `CallOutcomes.StudentNoShowOutcome` | backend/internal/bookings/service.go:695-714 | Succeeds if and only if the owner reports a started confirmed lesson whose capture goes through and no write fails; then completed, captured, on the ledger. |
| `CallOutcomes.TeacherNoShowOutcome` | backend/internal/bookings/service.go:716-726 | Succeeds if and only if the owner reports a started confirmed lesson and no write fails; then cancelled by the teacher with the money returned. A cancellation that fails to write leaves only the no-show flag. |
| `Refusals.NoShowRefusals` | backend/internal/bookings/service.go:676-727 | Which refusal a no-show report gets and when, those from the capture included, and what a failed write leaves behind. |
| `CallOutcomes.CallTouchesOnly` | backend/internal/bookings/service.go:311-727 | Every call about one booking leaves all other bookings, payments and ledger rows alone. |
| `Cancellations.CancelledLessonsHoldNoMoney` | backend/internal/bookings/service.go:613-641 | In every reachable state a lesson cancelled by its student or teacher has no intent, or one that failed or was refunded; only an operator's cancellation can leave money held. |
| `Cancellations.RunKeepsCancelled` | backend/internal/bookings/service.go:613-641 | Every run of calls keeps that, then and in every later state. |
| `Cancellations.VoidedIsNeverPaid` | backend/internal/payments/service.go:130-141 | Once an intent is voided, in every later state of a run with reviews and disputes its booking is cancelled, its payment failed, and no token pays it: the void's comment holds. |
| `Cancellations.RunSiteVoids` | backend/internal/disputes/service.go:142-182 | No such run voids the intent of a booking that can still be paid, and recorded events stay recorded. |
| `Lifecycle.CaptureKeeps` | backend/internal/payments/service.go:90-111 | Capturing keeps the joint invariant; success means captured with a ledger row, failure leaves the tables alone. |
| `Lifecycle.RefundKeeps` | backend/internal/payments/service.go:118-150 | Refunding keeps the joint invariant, never fails in a reachable state, and spares paid rows. |
| `Lifecycle.AuthorizeKeeps` | backend/internal/payments/service.go:52-84 | Authorizing keeps the joint invariant and succeeds exactly when the intent exists and the token is not declined. |
| `LifecycleRuns.RunKeeps` | backend/internal/bookings/service.go:467-727 | Every run of calls, including calls stopped between capture and status write, keeps the joint booking-payment-ledger-provider invariant, and bookings only move forward: completed and cancelled rows never change. |
| `LifecycleRuns.LifecycleTable` | backend/internal/bookings/service.go:467-727 | In every state reachable from empty tables: pending means unpaid and no ledger row; confirmed means authorized, captured or refunded; completed means captured or refunded with a ledger row; a held row means captured; a reversed row means refunded. |
| `LifecycleRuns.CompleteOutcome` | backend/internal/bookings/service.go:510-546 | Completing succeeds if and only if the owner completes a confirmed, ended lesson whose capture goes through; then exactly this booking is completed, captured and on the ledger at its price and teacher. |
| `Refusals.CompleteRefusals` | backend/internal/bookings/service.go:510-546 | In a reachable state, which refusal completing gets and when: refunded money and a card's failing first capture included; every refusal but a failed write leaves the tables alone. |
| `LifecycleRuns.StoppedComplete` | backend/internal/bookings/service.go:515-546 | A stop after the capture leaves a captured payment, a ledger row and a confirmed booking. |
| `LifecycleRuns.RetryAfterStop` | backend/internal/bookings/service.go:515-546 | Retrying a stopped completion leaves exactly the state of one that never stopped. |
| `Retries.RetryAfterRun` | backend/internal/bookings/service.go:515-546 | A stopped completion, then any run of calls that neither cancels nor refunds the lesson: the payment is still captured, its one ledger row has the booked price, and the lesson is already completed or the owner's retry completes it and changes nothing else. |
| `Retries.NoShowRetryAfterRun` | backend/internal/bookings/service.go:695-714 | The same for a student no-show stopped at either of its two writes. |
| `Retries.RunKeepsBanked` | backend/internal/bookings/service.go:515-546 | A captured lesson stays captured, on the ledger and confirmed or completed through every run of calls that spares it. |
| `LifecycleRuns.FirstCaptureFails` | backend/internal/payments/fake_provider.go:89-115 | The capture-fail card: refused once with no table changed, completed on the next try. |
| `LifecycleRuns.PriceEndToEnd` | backend/internal/payments/repository_postgres.go:189-203 | Booking price, intent amount and ledger amount are one integer, and no later run changes it. |
| `LifecycleRuns.CreatedAtListedPrice` | backend/internal/bookings/service.go:337-382 | A paid lesson is created, with its intent, at the hourly price for its length. |
| `Calendar.NeverDoubleBooked` | backend/README.md:237-243 | In every reachable state no two live bookings of one teacher, or of one student, overlap. |
| `Calendar.RunNeverDoubleBooks` | backend/internal/bookings/service.go:348-372 | Every run of calls keeps the calendar free of double bookings. |
| `Calendar.ListedIffBookable` | backend/internal/bookings/service.go:252-372 | A future start is in the slots answer exactly when it is in the window and creating it is not refused as unavailable; creation then succeeds at the listed price unless the student is busy. |
| `Calendar.FreedStartIsBookable` | backend/internal/bookings/service.go:348-372 | Whatever ran since it was booked and whoever cancelled it (participant, operator, teacher no-show), the freed future start can be booked again by its student, and by any other free student, while the teacher's row is as it was. |
| `PayoutRun.PayoutRepository.Run` | backend/internal/payouts/repository_postgres.go:126-186 | While other transactions hold some rows, one run pays exactly the payable rows nobody holds, records its operator, their total, line count and distinct-teacher count, and records nothing when there are none. |
| `Payouts.RunOutcome` | backend/internal/payouts/repository_postgres.go:126-186 | The run from the rows alone: the open rows past their deadline that nobody holds become paid and point at the new batch, whose row has the operator, their sum, teachers and lessons; every other row, and every table besides, is as it was. |
| `PayoutRun.PayoutRepository.LockPayable` | backend/internal/db/sqlc/payouts.sql.go:314-320 | Each payable row nobody holds, once, by ascending id, and no other. |
| `PayoutRun.AddUp` | backend/internal/payouts/repository_postgres.go:143-153 | The loop's ids, teachers and total are those of the listed rows. |
| `PayoutRun.BatchLinesAddUp` | backend/internal/db/sqlc/payouts.sql.go:123-134 | A batch's per-teacher lines add up to its own total, lesson count and teacher count. |
| `PayoutProtocol.RunSafe` | backend/internal/payouts/repository_postgres.go:121-186 | Any interleaving of locks, commits, aborts, captures, refunds and clock ticks keeps in-flight row sets disjoint, plans fresh and batches balanced; paid and reversed rows and recorded batches never change again. |
| `PayoutProtocol.PayoutsConserveMoney` | backend/internal/payouts/repository_postgres.go:121-186 | After any interleaving each batch says what its rows say, all batch totals sum to the paid total, and nothing later moves a paid or reversed row. |
| `PayoutProtocol.NotPaidBeforeClearing` | backend/internal/payouts/repository_postgres.go:121-186 | However runs and refunds interleave, a row captured at some instant is not paid before the clearing days after it are over. |
| `PayoutProtocol.CaptureIsEvent` | backend/internal/payments/repository_postgres.go:189-203 | The protocol's capture does to the ledger what applying a captured event does. |
| `PayoutProtocol.RefundIsEvent` | backend/internal/payments/repository_postgres.go:205-211 | A refund that asks, gets its row and commits does what applying a refunded event does, and holds nothing afterwards. |
| `PayoutProtocol.LockThenCommitIsRun` | backend/internal/payouts/repository_postgres.go:126-186 | Whatever is in flight, lock then commit is the run that skips the held rows, and leaves the other transactions as they were. |
| `PayoutProtocol.LockThenCommitIsSoloRun` | backend/internal/payouts/repository_postgres.go:126-186 | With nothing in flight, lock then commit is the one-call run. |
| `Payouts.BatchTotalsArePaid` | backend/internal/db/sqlc/payouts.sql.go:231-239 | Batch totals sum to the money paid out. |
| `Payouts.CommitBalances` | backend/internal/db/sqlc/payouts.sql.go:360-365 | Recording a batch over open rows and marking them keeps every batch equal to its rows. |
| `LedgerViews.Summarize` | backend/internal/payments/payments.go:252-275 | One pass rewrites every line to its state at `now` and returns the held, available and paid totals and their sum; reversed lines add nothing. |
| `LedgerViews.SummaryMatchesLedger` | backend/internal/payments/payments.go:252-275 | The summary's total for a state is the sum of the teacher's ledger rows reading as it. |
| `LedgerViews.TeachersAddUp` | backend/internal/db/sqlc/payouts.sql.go:231-240 | The teachers' totals for any state add up to the operator's. |
| `LedgerViews.OwedAddsUp` | backend/internal/db/sqlc/payouts.sql.go:66-78 | The owed rows add up to the operator's available total. |
| `LedgerViews.SoloRunClearsAvailable` | backend/internal/db/sqlc/payouts.sql.go:314-365 | A solo run pays exactly the available total, leaves zero available, and moves nothing else. |
| `LedgerViews.ClockMovesHeldToAvailable` | backend/internal/payments/payments.go:238-248 | Time only moves money from held to available; paid and reversed totals stand. |
| `LedgerViews.ReadingsPartition` | backend/internal/payments/payments.go:238-248 | The four readings split the whole ledger. |
| `Ratings.ReviewRepository.RecomputeTeacherRating` | backend/internal/db/sqlc/reviews.sql.go:388-408 | The teacher's pair becomes the baseline folded with the visible booking-tied reviews (the number itself: ShownRating); nobody else's changes. |
| `Ratings.ReviewRepository.CreateReview` | backend/internal/reviews/repository_postgres.go:52-96 | A second review of a booking is refused before anything moves; otherwise inserted and recomputed. |
| `Ratings.ReviewRepository.SetReviewHidden` | backend/internal/reviews/repository_postgres.go:211-252 | Sets the flag and recomputes, or reports an unknown review. |
| `Ratings.ReviewRepository.RemoveReview` | backend/internal/reviews/repository_postgres.go:254-277 | Deletes and recomputes, or reports an unknown review. |
| `Ratings.WriteOutcome` | backend/internal/reviews/repository_postgres.go:52-277 | Create adds exactly one row unless the booking has a review, hide and unhide set exactly one flag, remove drops exactly one row; other teachers' standings stand. |
| `Ratings.ShownRating` | backend/internal/db/sqlc/reviews.sql.go:388-408 | On a settled board the shown rating is the tenth nearest, ties up, to baseline times its count plus all visible stars, over baseline count plus number of visible reviews, all written out. |
| `Ratings.BaselineShownAlone` | backend/internal/db/sqlc/reviews.sql.go:399-404 | A teacher without a visible review shows the baseline rounded to a tenth, and nothing without a baseline. |
| `Ratings.AggregateIsItsDefinition` | backend/internal/db/sqlc/reviews.sql.go:388-416 | After any run of creates, hides, unhides and removals every count and rating equals its definition, baselines are untouched, and no booking has two reviews. |
| `Ratings.OrderNeverShows` | backend/internal/db/sqlc/reviews.sql.go:410-416 | Runs that leave the same reviews leave the same ratings. |
| `Ratings.UnhideUndoesHide` | backend/internal/reviews/repository_postgres.go:211-252 | Hide then unhide restores the whole board. |
| `Ratings.RemoveUndoesCreate` | backend/internal/reviews/repository_postgres.go:254-277 | Create then remove restores the whole board. |
| `Ratings.ClampNeverActs` | backend/internal/db/sqlc/reviews.sql.go:399-404 | In-range ratings never reach the clamp: the shown value is the exact mean rounded to the nearest tenth, ties up, and lies in [0, 5] by itself. |
| `Ratings.HidingALowReviewNeverLowers` | backend/internal/db/sqlc/reviews.sql.go:388-408 | Hiding a review not above the exact mean never lowers the rounded rating while others remain. |
| `Disputes.ReviewService.Create` | backend/internal/reviews/service.go:72-101 | Refusals in the source's order; otherwise the trimmed review of the booking's student and teacher. |
| `Disputes.DisputeRepository.Create` | backend/internal/disputes/repository_postgres.go:52-74 | At most one open dispute per booking. |
| `Disputes.DisputeRepository.Resolve` | backend/internal/disputes/repository_postgres.go:183-200 | Closes an open dispute only, and tells unknown from already closed. |
| `Disputes.DisputeService.Raise` | backend/internal/disputes/service.go:65-86 | Refusals in the source's order; otherwise an open dispute with the trimmed reason. |
| `Disputes.DisputeService.Resolve` | backend/internal/disputes/service.go:142-182 | Closes, then refunds only for a resolved outcome that asks for it; the decision stands whatever the refund does. |
| `DisputeOutcomes.ReviewOutcome` | backend/internal/reviews/service.go:72-101 | Accepted if and only if valid input comes from the student of a completed, unreviewed booking; then it stands once, counts for the teacher, and nobody else's rating moves. |
| `DisputeOutcomes.RaiseOutcome` | backend/internal/disputes/service.go:65-86 | Raised if and only if a participant of a confirmed or completed booking without an open dispute gives a valid reason; then it is the booking's one open dispute. |
| `DisputeOutcomes.ResolveOutcome` | backend/internal/disputes/service.go:142-182 | Resolved if and only if open, with a known outcome and a note; the money is returned only for a resolved outcome that asks, no booking row changes, and the booking can be disputed again. |
| `DisputeOutcomes.ReviewRefusals` | backend/internal/reviews/service.go:72-101 | Which refusal a review gets and when. |
| `DisputeOutcomes.RaiseRefusals` | backend/internal/disputes/service.go:65-86 | Which refusal raising a dispute gets and when. |
| `DisputeOutcomes.ResolveRefusals` | backend/internal/disputes/service.go:142-182 | Which refusal resolving a dispute gets and when. |
| `Annotations.Annotate` | backend/internal/bookings/handler.go:251-266 | The flags from exactly the lookups the booking's status allows. |
| `Annotations.AnnotateAll` | backend/internal/bookings/handler.go:119-129 | The list's two slices and mapping give each booking those same flags, position by position. |
| `Annotations.SkippedLookupsFindNothing` | backend/internal/bookings/handler.go:254-264 | An uncompleted booking has no review and a pending one no open dispute. |
| `Annotations.SkippingIsHarmless` | backend/internal/bookings/handler.go:251-266 | In a sound site, skipping lookups shows exactly what making all of them would, review and open dispute included. |
| `Annotations.LookupsAreUnique` | backend/internal/bookings/dto.go:194-225 | A booking has one review and one open dispute at most, so the flags are determined. |
| `Annotations.RunSiteSound` | backend/internal/disputes/service.go:65-86 | Every run of booking, review, moderation and dispute calls keeps reviews on completed bookings and disputes off pending ones. |
| `Annotations.FlagsAlwaysTellTheTruth` | backend/internal/bookings/dto.go:194-225 | In every reachable state, for every viewer, the annotation with skipped lookups is the one with all of them; can_raise_dispute if and only if raising with a valid reason succeeds, can_review if and only if reviewing with valid input succeeds; the booking's review and open dispute are shown whenever they exist. |
| `Sessions.AuthService.Register` | backend/internal/auth/service.go:149-178 | Normalizes and checks address, password and name, refuses a taken address, else stores the account, issues its link and logs it in; addresses stay unique. |
| `Sessions.AuthService.Login` | backend/internal/auth/service.go:299-316 | A session for the account at the normalized address whose hash matches, and the same refusal for either being wrong. |
| `Sessions.AuthService.Refresh` | backend/internal/auth/service.go:322-358 | Rotates an active unexpired session; a revoked one revokes everything its user has; an expired one is revoked. |
| `Sessions.AuthService.Logout` | backend/internal/auth/service.go:363-372 | Revokes the presented session, silently nothing for an unknown one. |
| `Sessions.AuthService.RequestPasswordReset` | backend/internal/auth/service.go:185-212 | A new link for a known valid address off its cooldown; otherwise nothing, and nothing is told either way. |
| `Sessions.AuthService.ResetPassword` | backend/internal/auth/service.go:217-231 | Its owner's password replaced, link spent, every session of that owner revoked together, or nothing; no other account changes. |
| `Sessions.AuthService.VerifyEmail` | backend/internal/auth/service.go:237-249 | A live link verifies and is spent; a spent link of a verified account still succeeds. |
| `Sessions.AuthService.ResendEmailVerification` | backend/internal/auth/service.go:253-266 | A new link unless verified or on cooldown. |
| `AuthOutcomes.RegisterOutcome` | backend/internal/auth/service.go:149-178 | Succeeds if and only if the application is admissible and nobody has the address; then exactly one unverified account, one live link and one session appear. |
| `AuthOutcomes.RegisteredCanLogIn` | backend/internal/auth/service.go:149-178 | The registered password logs in and no other does; the link verifies for 24 hours and not after. |
| `AuthOutcomes.LoginOutcome` | backend/internal/auth/service.go:299-316 | Succeeds if and only if an account at that address matches the password; starts one session, touches nothing else, refuses always alike. |
| `AuthOutcomes.LogoutOutcome` | backend/internal/auth/service.go:363-372 | Ends exactly the presented session, idempotently; whatever runs later, refreshing it fails. |
| `AuthOutcomes.RefreshOutcome` | backend/internal/auth/service.go:322-358 | Every way a refresh can end and all it leaves: a rotated pair with a new lifetime; for a revoked token none of its user's sessions and all of everybody else's; for an expired one just that session ended; accounts and links never change. |
| `AuthOutcomes.ResetOutcome` | backend/internal/auth/service.go:217-231 | Exactly when a reset succeeds and with which refusal otherwise; then the owner's password hash, the owner's running sessions and that one link are all that changed; a refusal changes nothing. |
| `AuthOutcomes.ResetSparesOthers` | backend/internal/auth/repository_postgres.go:206-219 | No other account's login verdict changes, for any password. |
| `AuthOutcomes.VerifyOutcome` | backend/internal/auth/service.go:237-249 | Exactly when verifying succeeds; a usable link verifies its owner alone and is spent, anything else changes nothing. |
| `AuthOutcomes.ValidEmailMeans` | backend/internal/auth/service.go:446-460 | An address is valid if and only if it has 3 to 254 bytes, parses as one bare address, and has a dot after its last at sign. |
| `Text.TrimSpaceDropsSpaces` | backend/internal/auth/service.go:444 | Trimming takes white space off both ends and nothing else. |
| `AuthOutcomes.ResetRequestOutcome` | backend/internal/auth/service.go:185-212 | A link is issued exactly for a known valid address off its cooldown and is then the only live one; accounts and sessions are untouched. |
| `AuthOutcomes.ResetLinkWorksForAnHour` | backend/internal/auth/service.go:185-231 | A fresh link works within the hour and not after; used, exactly the new password logs in and no earlier session is active. |
| `AuthOutcomes.ResendOutcome` | backend/internal/auth/service.go:253-266 | Succeeds if and only if the account exists unverified; off its cooldown the new link is the only live one. |
| `AuthOutcomes.CooldownHolds` | backend/internal/auth/service.go:286-294 | After an issue the cooldown is on if and only if less than a minute has passed (and the clock is past its first second); other accounts and the other purpose are not held up. |
| `AuthOutcomes.RunKeepsEmails` | backend/internal/auth/service.go:168-171 | After any run no two accounts share an address. |
| `Sessions.AuthService.RevokeSession` | backend/internal/db/sqlc/auth.sql.go:326-330 | Ends an active session with its link; never rewrites a revoked one. |
| `Sessions.AuthService.RevokeAllUserSessions` | backend/internal/db/sqlc/auth.sql.go:314-318 | Ends every active session of the user and no other. |
| `SessionChains.ChainsRootedAtLogins` | backend/internal/auth/service.go:299-436 | After any run the sessions split into disjoint forward replaced_by chains, each of a single user, whose first sessions are exactly those that logins and registrations started. |
| `SessionChains.OnlyTailsActive` | backend/internal/db/sqlc/auth.sql.go:326-330 | Only the tail of a chain can be active. |
| `SessionChains.RefreshSwapsOne` | backend/internal/auth/service.go:347-357 | A refresh ends exactly the presented session and begins exactly one for the same user. |
| `SessionChains.RefreshSucceedsIff` | backend/internal/auth/service.go:322-357 | A refresh succeeds if and only if the session exists, is active, is unexpired and its user exists. |
| `SessionChains.ReuseRevokesEverything` | backend/internal/auth/service.go:332-336 | However it was revoked and whatever ran since, presenting a revoked token is refused and leaves its user with no active session. |
| `SessionChains.ResetEndsSessions` | backend/internal/auth/repository_postgres.go:206-219 | A reset leaves its user with no active session and its link never works again. |
| `SessionChains.RunOnlyEnds` | backend/internal/db/sqlc/auth.sql.go:314-330 | Sessions are never deleted and a revoked one never changes. |
| `SessionChains.RunKeepsOneLink` | backend/internal/db/sqlc/auth.sql.go:26-29 | A user has at most one unspent link per purpose. |
| `SessionChains.VerifyTwice` | backend/internal/auth/service.go:233-249 | Submitting a verification link twice succeeds twice and changes nothing the second time. |
| `ResourceContent.NormalizeAndValidateContent` | backend/internal/resources/content.go:12-70 | The source's branches and refusals for every type, with ids drawn in order, each used once. |
| `ResourceContent.NormalizeQuestion` | backend/internal/resources/content.go:72-132 | One question cleaned or refused with its reason; the caller's choice slice is left written through exactly as far as the loop got. |
| `ResourceContent.NormalizeQuestions` | backend/internal/resources/content.go:56-64 | The questions in order, or the first bad one's number and reason; accepted questions hold what the caller's slices now hold. |
| `ResourceContent.CleanChoicesLoop` | backend/internal/resources/content.go:89-99 | In place: choices trimmed and given ids, one draw each, their ids collected; a blank choice stops the loop with the earlier ones already rewritten. |
| `ResourceIds.GeneratedIdsAreNew` | backend/internal/resources/content.go:72-99 | With a generator that never repeats itself, over a whole accepted payload every generated question and choice id differs from every other id, given or generated, and given ids are kept. |
| `ResourceIds.DistinctChoicesStayDistinct` | backend/internal/resources/content.go:89-99 | A question whose given choice ids are distinct is stored with distinct choice ids. |
| `ResourceContent.Dedupe` | backend/internal/resources/content.go:159-169 | First occurrences of the non-blank entries: distinct, the same members, unchanged when already distinct. |
| `ResourceContent.DedupeLoop` | backend/internal/resources/content.go:159-169 | The loop with its `seen` map computes that. |
| `ResourceRefusals.DedupeKeepsOrder` | backend/internal/resources/content.go:159-169 | Reading on only appends, so marks stand in the order of their first occurrences. |
| `ResourceRefusals.AnswersInOrder` | backend/internal/resources/content.go:114-126 | Accepted answers are read one by one and keep their order. |
| `ResourceContent.AcceptedIff` | backend/internal/resources/content.go:12-132 | With fresh generated ids a payload is accepted if and only if it meets a description that never mentions the normalizer. |
| `ResourceRefusals.RefusedWithFirstFault` | backend/internal/resources/content.go:12-132 | A refused payload is refused with the first fault of a description that never mentions the normalizer, the number of the first faulty question included; a payload without fault is accepted. |
| `ResourceRefusals.FirstFaultIsFirst` | backend/internal/resources/content.go:56-64 | The number reported is that of the first faulty question: it has the fault named and none before it has any. |
| `ResourceContent.CleanedIsStored` | backend/internal/resources/content.go:12-153 | What is accepted has the stored shape: trimmed, ids filled, points positive, correct ids distinct and among the choices (one for single), other types' fields empty. |
| `ResourceContent.FixedPointsAreStored` | backend/internal/resources/content.go:9-70 | Normalizing leaves a payload alone and draws no id if and only if it has the stored shape. |
| `ResourceContent.NormalizedTwice` | backend/internal/resources/content.go:9-70 | Accepted content normalized again, with any id supply, is accepted unchanged. |
| `ResourceContent.NothingIsLost` | backend/internal/resources/content.go:12-169 | The author's text, ids, marks and points survive, trimmed; only missing ids and points are filled in. |

## Left out

- Machine integers and `time.Time` overflow: amounts, counts and instants are unbounded.
- Timestamp precision: the database keeps microseconds, the model the nanoseconds it was given.
- Currencies: every amount is in one currency.
- Payment and ledger row identity: both tables are unique per booking, so a row is addressed by its booking; a session and a link token are addressed by their own opaque value.
- Event ids as text: `eventID` is modelled as an injective pair of source and type, apart from whatever text a foreign webhook carries.
- The random order of Go map iteration and SQL `ORDER BY`: contracts hold for every order, except that response ordering itself is not stated.
- Unwired ports: the payment gateway, the review and dispute readers and the refunder are always present; reminders, mail and notifications are external.
- Database failures other than those the calls handle; the injected ones are the intent insert, the no-show flag and the status or cancellation write.
- Overlapping service calls outside payout runs: the booking and payment marks are unguarded, so lifecycle, session and calendar claims are for calls taken one at a time, and a refresh that stops between creating and revoking is not covered.
- Lower-casing, mail-address parsing and password hashing: opaque functions the auth service is given; the database's own case folding of addresses is not modelled.
- Ratings.ReviewRepository.RecomputeTeacherRating: float4 storage of the two rating columns is not represented.
- Availability.Service.Replace: sorts a copy, where the source sorts the slice it was handed in place.
- Intervals.MergeIntervals: works on sequences, where the source sorts and extends slices it owns.
- Repository.Store.WriteBooking: `updated_at`, cancellation time and reason text are not columns of the model.
- Meeting links, booking lists by role, pagination, metrics, role permissions, teacher moderation and profile editing: small guards and field copying.
- HTTP handlers beyond the flag annotation, routing, configuration, seed data, storage, scheduling and the frontend.
- The signature check of incoming webhooks, token signing and password hashing: library calls.
