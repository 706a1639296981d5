# A verified model of a ticket-booking backend

The backend sells seats for many tenants out of one database. Its correctness rests on a handful of
protocols that run as separate awaited steps over Redis and Postgres, and on a few small stateful
algorithms. This project models those in Dafny and proves what they promise, for every input, every
interleaving and every run; where a promise does not hold as it stands, it proves exactly when it
does, and gives the run or the input that breaks it.

Check it with `dafny verify dfyconfig.toml`.

## How it is built

- **Protocols are state machines.** One `Action` is what the service does between two awaits; `Apply`
  is its effect on the shared stores; `Run` folds a sequence of actions. A guard that is not met leaves
  the state alone. Theorems speak of all sequences of actions.
- **Assumptions are named and shown to be needed.** `RunRespects` says that every step of a run keeps
  an assumption; for each one there is a run that keeps all the others and breaks the result.
- **Services are classes.** A method follows its source branch by branch over mutable fields, and its
  `ensures` says case by case what the answer and the new rows are, and ties the new tables to the
  protocol's step.
- Times are integer milliseconds, money is integer paise (reals where the code keeps decimals). HMAC and
  SHA-256 are function parameters, collision-free where that matters. Clocks, random ids, gateway
  replies, database orders and failures are parameters. Each `$transaction` is one atomic step.

| file | models |
|---|---|
| `SeatReservation`, `ReservationService`, `ReservationAssumptions` | the seat lock with its lease, booking initiation, confirmation, expiry |
| `SeatMap` | lock keys as text, the seat map read from one snapshot |
| `Lifecycle`, `Payments`, `PaymentLedger`, `PaymentRuns`, `PaymentPromises`, `PaymentAssumptions`, `PaymentService` | transition table; webhooks, reconciliation and refunds over an append-only ledger |
| `WebhookRedelivery` | the bookings webhook delivered any number of times |
| `Scans`, `OfflineSync` | scanning at the gate, online and by batch upload |
| `TicketIssue`, `QrToken`, `JsonText`, `Base64`, `TextNumbers` | issuing tickets; signed tokens down to their bytes |
| `TenantScope` | the query rewriter that separates tenants |
| `LockSweep`, `ExpirySweep` | batched sweepers |
| `CircuitBreaker`, `AnomalyWindow`, `Discount` | breaker, sliding windows, discount arithmetic |
| `Outcomes`, `Sequences`, `BookingStatuses` | `Option`, `Result`; distinct sequences and the oldest of a set; the statuses of the seat-booking schema |

## What the proofs found

- **Double booking.** `releaseMany` deletes by force, locks are checked by user and not by token, and the
  webhook does not look at `expiresAt`. Safety needs four things of the deployment: `InLease`,
  `OneRequest`, `PromptPayment`, `QuietExpiry`.
- **Money.** A refund whose transaction is lost after the gateway paid is paid again; a `refund.failed`
  overtaking that transaction does the same. What the ledger records is `finalAmount`, which stays 0 until a
  discount is applied; what the customer is charged is then `totalAmount`: the two agree exactly when a
  discount was applied or both amounts are the same.
- **Lost confirmation.** The bookings webhook stores the event id before, and not together with, the
  booking: a delivery that throws in between is a duplicate for ever after.
- **Tenants.** `upsert` and `findUnique` are not scoped; an update that sets `tenantId` gives rows away.
- **Sweeps.** The lock sweep releases locks by id: a booking confirmed between its listing and its
  transaction stays CONFIRMED with EXPIRED seat rows. A hundred failing bookings at the head of the expiry
  queue block every younger one for ever, and fewer than a hundred do not.
- **Breaker.** A failed half-open trial does not reopen the circuit; five further failures do.
- **Discounts.** An uncapped percentage over 100 makes the discount exceed the total as soon as the excess is worth half a paisa.
- **Code against its comments.** `prisma-tenant.extension.ts:51` says `findUnique` is scoped elsewhere:
  the model follows the extension. `payments.service.ts:147` calls
  `finalAmount` a float: the column is `DECIMAL(10,2)`, so `finalAmount || totalAmount` never falls back and
  the model takes `finalAmount`. `payments.service.ts:199` speaks of writing `orderCreatedAt`: the code
  writes only the order id, so the model's `ordered` is set by either. `isTerminalState` disagrees with
  the transition table and is not used.

## Model

| member | source | states |
|---|---|---|
| `SeatReservation.NeverDoubleBooked` | backend/src/bookings/bookings.service.ts:80-169 | over every interleaving of any number of clients, seats and jobs that respects the four assumptions, no seat is in two live bookings, and at most one request per seat stands between validation and release |
| `SeatReservation.InvGivesExclusiveWindows` | backend/src/seat-locks/seat-locks.service.ts:113-146 | the key lemma: two requests never both hold a seat between reading and deleting its lock |
| `SeatReservation.CreateKeepsInv` | backend/src/bookings/bookings.service.ts:112-152 | creating the booking after the awaited order keeps the invariant, although the conflict query was answered earlier |
| `SeatReservation.ReleaseDelKeepsInv` | backend/src/seat-locks/seat-locks.service.ts:81-111 | the forced delete hits only the request's own lock |
| `SeatReservation.JobDeleteKeepsInv` | backend/src/seat-locks/seat-locks.service.ts:161-189 | an expiry job's delete, however long after its GET and PTTL, removes nothing a request relies on |
| `SeatReservation.ConfirmKeepsInv` | backend/src/bookings/bookings.service.ts:364-408 | a confirmation that lands before `expiresAt` keeps the invariant, however long ago the delivery read the booking |
| `ReservationAssumptions.InLeaseIsNeeded` | backend/src/bookings/bookings.service.ts:80-169 | with a request slower than its lock, and the other assumptions kept, a seat is sold twice |
| `ReservationAssumptions.OneRequestIsNeeded` | backend/src/seat-locks/seat-locks.service.ts:127-132 | two requests of one user pass the same lock check and sell the seat twice |
| `ReservationAssumptions.QuietExpiryIsNeeded` | backend/src/seat-locks/seat-locks.service.ts:161-189 | an old lock's expiry job that sees the lock, finds it lapsed, and deletes the key after somebody else locked it leads to a double booking |
| `ReservationAssumptions.PromptPaymentIsNeeded` | backend/src/bookings/bookings.service.ts:364-408 | a webhook that confirms after `expiresAt` leads to a double booking |
| `ReservationService.UninterruptedBooking` | backend/src/bookings/bookings.service.ts:46-183 | the steps of one call, run without interference, either book and release all seats or change nothing |
| `ReservationService.UninterruptedConfirmation` | backend/src/bookings/bookings.service.ts:364-408 | a payment webhook's steps, run without interference, confirm the booking exactly when it is PENDING and change nothing else |
| `ReservationService.UninterruptedExpiry` | backend/src/bookings/bookings.service.ts:430-462 | an expiry job's steps end the booking exactly when it is PENDING and its time is up |
| `ReservationService.UninterruptedUnlock` | backend/src/seat-locks/seat-locks.service.ts:81-111 | a user's unlock takes the key away exactly when its live lock is the user's |
| `ReservationService.ReservationStores.InitiateBooking` | backend/src/bookings/bookings.service.ts:46-183 | goes through exactly when the event is the tenant's, the seats are the event's, each is locked by the user now, and no CONFIRMED or unexpired PENDING booking shares one; which of the four rejections otherwise; then exactly one PENDING booking more and exactly these locks gone; the protocol's run |
| `ReservationService.ReservationStores.LockSeat` | backend/src/seat-locks/seat-locks.service.ts:30-79 | refused exactly when a live lock is there; otherwise the key holds this user and token for the configured time, and no other key changes |
| `ReservationService.ReservationStores.UnlockSeat` | backend/src/seat-locks/seat-locks.service.ts:81-111 | nothing there, forbidden, or exactly this key deleted |
| `ReservationService.ReservationStores.ValidateLocksOwned` | backend/src/seat-locks/seat-locks.service.ts:113-133 | true exactly when every seat is locked by the user now |
| `ReservationService.ReservationStores.ReleaseMany` | backend/src/seat-locks/seat-locks.service.ts:135-146 | exactly the live locks of these seats are gone, whoever held them |
| `ReservationService.Dedup` | backend/src/bookings/bookings.service.ts:51 | the same seats, each once, in the order of first occurrences |
| `SeatMap.KeyTextIsInjective` | backend/src/seat-locks/seat-locks.service.ts:191-193 | two locks share a key text only if they are the same lock, when tenant and event names have no colon |
| `SeatMap.ColonsCollide` | backend/src/seat-locks/seat-locks.service.ts:191-193 | with a colon in a name they can collide |
| `SeatMap.PrefixScanIsExact` | backend/src/seat-locks/seat-locks.service.ts:148-150 | the prefix of an event matches its own keys and no others |
| `SeatMap.StoreByKeyText` | backend/src/seat-locks/seat-locks.service.ts:37-54 | writing and deleting under the key text is writing and deleting that lock |
| `SeatMap.GetLocksForEvent` | backend/src/seat-locks/seat-locks.service.ts:148-159 | returns exactly the live locks of the event, with their holders |
| `SeatMap.BusySeats` | backend/src/events/events.service.ts:82-113 | exactly the event's seats in a live booking, whatever order the rows come in |
| `SeatMap.GetSeatMap` | backend/src/events/events.service.ts:61-157 | each seat of the event once, in order; each entry true of the snapshot, double-booked or not |
| `SeatMap.ShowsTheOneBooking` | backend/src/events/events.service.ts:113-131 | without double bookings a busy seat shows the status of its one booking, and whether it is the reader's |
| `SeatMap.MapAgreesWithProtocol` | backend/src/events/events.service.ts:113-147 | AVAILABLE exactly when any user could lock the seat and book it at once; LOCKED_BY_ME exactly when this user could book it now |
| `Lifecycle.ReachIsLater` | backend/src/bookings/bookings-state.machine.ts:9-20 | the reflexive-transitive closure of the transition table, in closed form, both ways |
| `Lifecycle.OnlyCycle` | backend/src/bookings/bookings-state.machine.ts:9-20 | two statuses reach each other only as REFUND_INITIATED and REFUND_FAILED |
| `Lifecycle.FinalStatuses` | backend/src/bookings/bookings-state.machine.ts:9-20 | REFUNDED is absorbing; CONFIRMED, once left, is never entered again |
| `Lifecycle.ValidateTransition` | backend/src/bookings/bookings-state.machine.ts:29-36 | lets through exactly the steps of the table, all of which lie in its closure; names both statuses otherwise |
| `PaymentRuns.StepFollowsTable` | backend/src/payments/reconciliation.worker.ts:148-222 | every status write of creator, processor, sweep, refund service, webhooks and jobs lies in the closure of the table |
| `PaymentRuns.HistoryFollowsTable` | backend/src/bookings/bookings-state.machine.ts:9-36 | between any two moments of any run a booking has moved along the table |
| `PaymentRuns.LedgerMatchesStatus` | backend/src/payments/payments-processor.service.ts:30-130 | over every interleaving: no payment row while LOCKED or PAYMENT_IN_PROGRESS, exactly one when CONFIRMED, at least one in the refund cycle; the force-sync branch changes nothing |
| `PaymentLedger.StepKeepsLedger` | backend/src/payments/reconciliation.worker.ts:100-203 | the ledger invariant survives every step, with duplicates, different event ids and outer rollbacks |
| `PaymentLedger.ForceSyncChangesNothing` | backend/src/payments/reconciliation.worker.ts:131-145 | the branch that only syncs the status finds nothing to sync |
| `PaymentLedger.NoOrderlessWrite` | backend/src/payments/reconciliation.worker.ts:100-110 | a listed booking always has an order id |
| `PaymentRuns.RefundsNeverExceedPayments` | backend/src/payments/refund.service.ts:22-109 | in every run a booking is refunded at most once, at the gateway and in the ledger, only after a payment, and what is refunded never exceeds what was recorded as paid |
| `PaymentRuns.RecordedIsChargedExactlyWhen` | backend/src/payments/payments.service.ts:145-153 | in every run the recorded payment of a CONFIRMED booking is the amount its order charges if and only if a discount was applied or the final amount equals the total |
| `PaymentPromises.CapturedPaymentIsRecorded` | backend/src/payments/payments-processor.service.ts:49-124 | a captured payment of a LOCKED, PAYMENT_IN_PROGRESS or EXPIRED booking is on the ledger with the final amount after any further steps, and with it, for an EXPIRED booking, the refund that is due |
| `PaymentPromises.SweptPaymentIsRecorded` | backend/src/payments/reconciliation.worker.ts:112-203 | in every run, once the sweep has settled a captured payment of a booking in PAYMENT_IN_PROGRESS, EXPIRED, CANCELLED or FAILED, that payment is on the ledger for good |
| `PaymentPromises.RefundedMeansRefunded` | backend/src/payments/refund.service.ts:78-147 | in every run, with no assumption, a booking is REFUNDED only if the gateway made its refund or a refund.processed webhook was written for it |
| `PaymentAssumptions.RefundCommitsIsNeeded` | backend/src/payments/refund.service.ts:78-109 | a lost transaction after the gateway's refund leads to a second refund |
| `PaymentAssumptions.NoLateFailureIsNeeded` | backend/src/payments/payments.webhook.controller.ts:215-246 | a refund.failed between refund and transaction leads to a second refund |
| `PaymentAssumptions.FailedInCycleIsNeeded` | backend/src/payments/payments.webhook.controller.ts:215-246 | refund.failed overwrites REFUNDED |
| `PaymentService.PaymentTables.ProcessPaymentSuccess` | backend/src/payments/payments-processor.service.ts:17-138 | status by status: from LOCKED or PAYMENT_IN_PROGRESS the booking is CONFIRMED with this payment id and exactly one PAYMENT/SUCCESS row of the final amount is appended; from EXPIRED only that row and the REFUND row; from any other status nothing; other bookings never; not found or of another tenant, exactly when |
| `PaymentService.PaymentTables.HandleCaptured` | backend/src/payments/payments.webhook.controller.ts:91-157 | when it is a duplicate, lacks its tenant, is processed, or is rolled back after the processor's own commit, and in the last two cases, status by status, what booking and ledger become; the tables are those of the protocol's run of the webhook |
| `PaymentService.PaymentTables.HandleRefundProcessed` | backend/src/payments/payments.webhook.controller.ts:163-213 | resolves the booking by the refund's payment id; that booking goes from REFUND_INITIATED to REFUNDED, any other status and any other booking stay; the protocol's run of the webhook |
| `PaymentService.PaymentTables.HandleRefundFailed` | backend/src/payments/payments.webhook.controller.ts:215-246 | resolves the booking the same way; that booking is REFUND_FAILED whatever it was, its other fields and the other bookings stay; the protocol's run of the webhook |
| `PaymentService.PaymentTables.ReconcileBooking` | backend/src/payments/reconciliation.worker.ts:100-224 | for every reply and status: a captured payment the ledger lacks makes PAYMENT_IN_PROGRESS CONFIRMED with its id and one PAYMENT row, and EXPIRED, CANCELLED or FAILED REFUND_INITIATED with both rows; a recorded one only syncs the status; nothing captured, or no order, is FAILED; unreachable changes nothing; nor does anything else change |
| `PaymentService.PaymentTables.ProcessRefund` | backend/src/payments/refund.service.ts:22-175 | not due: nothing changes; refunded: REFUNDED and one REFUND/SUCCESS row under the refund id or else the payment id; declined: REFUND_FAILED and one unsuccessful row; other fields and other bookings stay; true exactly when refunded |
| `PaymentService.PaymentTables.ReconcileListed` | backend/src/payments/reconciliation.worker.ts:81-92 | the loop over the stale bookings: each is FAILED, left alone or CONFIRMED as the gateway answered for it, with the payment's row when that payment is new to the ledger and to the rest of the list; no other booking changes |
| `PaymentService.PaymentTables.SweepPendingRefunds` | backend/src/payments/reconciliation.worker.ts:230-248 | lists the oldest fifty refunds due; each listed booking ends REFUNDED or REFUND_FAILED as the gateway answered for it, with exactly its one ledger row, or stays for want of a payment id; all other bookings and their rows stay; the protocol's steps one after the other |
| `PaymentService.PaymentTables.HandleReconciliation` | backend/src/payments/reconciliation.worker.ts:36-98 | nothing while a sweep is running or when nothing is stale; otherwise the oldest fifty stale bookings, each ending as its own gateway answer says in status, payment id and ledger rows, then the refunds due, likewise, and every other booking and its rows untouched; the tables are those of the protocol's run of the whole sweep |
| `PaymentService.SweepIsRun` | backend/src/payments/reconciliation.worker.ts:81-92 | a sweep nobody interferes with is a run of the interleaved protocol, whatever is listed and whatever the gateway answers |
| `PaymentService.CapturedIsRun` | backend/src/payments/payments.webhook.controller.ts:93-137 | so is a captured webhook, with the processor's commit inside the outer transaction |
| `WebhookRedelivery.OnlyFirstDeliveriesCount` | backend/src/bookings/bookings.service.ts:337-360 | any sequence of deliveries leaves everything as if only the first of each event id had arrived |
| `WebhookRedelivery.ConfirmedAtMostOnce` | backend/src/bookings/bookings.service.ts:376-428 | a booking is answered `confirmed` at most once, exactly once if it ends up CONFIRMED |
| `WebhookRedelivery.ConfirmedAndExpiredAreFinal` | backend/src/bookings/bookings.service.ts:376-462 | CONFIRMED and EXPIRED rows never change again, payment id included |
| `WebhookRedelivery.EachPaymentConfirmsOneBooking` | backend/src/bookings/bookings.service.ts:396-408 | no payment id ever sits on two bookings |
| `WebhookRedelivery.RetryAfterFailureIsLost` | backend/src/bookings/bookings.service.ts:340-408 | a new, genuine delivery for a PENDING booking that throws after its event was stored, or whose payment id is taken, is a duplicate at every later retry |
| `WebhookRedelivery.BookingTables.ProcessPaymentWebhook` | backend/src/bookings/bookings.service.ts:313-428 | each of the eight answers exactly by its guard over signature, event id, order, status and payment index; the event id is stored once; the only other write is a PENDING booking confirmed with this payment |
| `WebhookRedelivery.BookingTables.ExpirePendingBooking` | backend/src/bookings/bookings.service.ts:430-462 | a PENDING booking whose time is up is EXPIRED, its other fields kept; nothing else changes |
| `Scans.OneAdmissionPerTicket` | backend/src/tickets/tickets.service.ts:174-243 | over every interleaving of online scans and offline uploads, SUCCESS logs plus winners still to log are one if the ticket is USED, else none |
| `Scans.ClaimBalances` | backend/src/tickets/tickets.service.ts:223-243 | the compare-and-set makes one winner, or none if the ticket is no longer ACTIVE |
| `Scans.SyncBalances` | backend/src/devices/devices.service.ts:154-247 | an offline transaction keeps the same balance |
| `OfflineSync.RetryEqualsOneUpload` | backend/src/devices/devices.service.ts:120-258 | uploading any prefix and then the whole batch equals one upload, in tickets, queue and logs |
| `OfflineSync.RetryAfterErrors` | backend/src/devices/devices.service.ts:149-255 | the batch uploaded again after some scans were answered ERROR processes exactly those, in order |
| `OfflineSync.ReplayChangesNothing` | backend/src/devices/devices.service.ts:149-255 | a batch uploaded again changes nothing, whatever scans, uploads, cancellations and issues of other tickets came between |
| `OfflineSync.BatchAdmits` | backend/src/devices/devices.service.ts:149-255 | over a whole batch with any failing transactions, every first use is admitted, stays used, and is the only admission of its ticket |
| `OfflineSync.ScanTables.SyncOfflineScans` | backend/src/devices/devices.service.ts:120-258 | refused exactly when the batch exceeds 500 or the device is not an active one of the tenant; ERROR exactly for scans whose transactions throw; the first committed, unknown scan of an ACTIVE own ticket is answered SUCCESS, every SUCCESS leaves its ticket USED, and no ticket gets two; the tables are those of the scans that commit, in order |
| `OfflineSync.ScanTables.SyncScan` | backend/src/devices/devices.service.ts:149-247 | each answer exactly by its guard over token, logs, queue and ticket row; SUCCESS uses the token's own ticket and nothing else touches a ticket; which answers write one queue and one log row, and with what in them |
| `OfflineSync.ScanTables.ScanTicket` | backend/src/tickets/tickets.service.ts:107-244 | undisturbed, each answer exactly by its guard over device, token, tenant, expiry, show window and status; SUCCESS uses the token's own ticket and nothing else does; always one log; the protocol's four steps |
| `QrToken.GeneratedTokenReadsBack` | backend/src/tickets/qr.util.ts:14-84 | a generated token reads back as its payload, for every payload; incomplete ones are turned down |
| `QrToken.PrintsPlainly` | backend/src/tickets/qr.util.ts:15 | the payload text: an object with the members t, s and exp, plain strings as they are |
| `QrToken.AcceptedMeansSigned` | backend/src/tickets/qr.util.ts:38-68 | an accepted token is version, dot-free body and the signature of that body |
| `QrToken.SignatureFixesToken` | backend/src/tickets/qr.util.ts:50-68 | no signature serves two accepted tokens |
| `QrToken.TokensDiffer` | backend/src/tickets/qr.util.ts:14-24 | different payloads never share a token |
| `QrToken.SplitJoins` | backend/src/tickets/qr.util.ts:41-45 | splitting at full stops loses nothing and leaves none behind |
| `Base64.RoundTrip` | backend/src/tickets/qr.util.ts:15-16 | decoding undoes encoding, for every byte sequence (section 4 of RFC 4648) |
| `Base64.FourForThree` | backend/src/tickets/qr.util.ts:15-16 | four symbols are the base-64 digits of the number whose base-256 digits are the three bytes |
| `Base64.NoDot` | backend/src/tickets/qr.util.ts:41-43 | encoded text has no full stop |
| `JsonText.TextRoundTrip` | backend/src/tickets/qr.util.ts:72 | UTF-8 decoding undoes encoding, for every text |
| `JsonText.StringReadsBack` | backend/src/tickets/qr.util.ts:73 | a printed JSON string reads back, escapes and all, with the text after it untouched |
| `JsonText.IntReadsBack` | backend/src/tickets/qr.util.ts:73 | so does a printed integer |
| `TicketIssue.OneTicketPerLabel` | backend/src/tickets/tickets.service.ts:50-97 | after any calls for any bookings, a seat label of a booking has exactly one ticket if some call found it confirmed, else none |
| `TicketIssue.AsManyTicketsAsSeats` | backend/src/tickets/tickets.service.ts:50-97 | issued any positive number of times, a booking has as many tickets as seats exactly when its labels are distinct |
| `TicketIssue.LabelIsInjective` | backend/src/tickets/tickets.service.ts:53-58 | row and number can be read back from a label when rows have no digits |
| `TicketIssue.DigitsInRowsCollide` | backend/src/tickets/tickets.service.ts:53-58 | with digits in a row name two seats can share a label |
| `TicketIssue.DistinctSeatsDistinctLabels` | backend/src/tickets/tickets.service.ts:53-58 | distinct seats in digit-free rows have distinct labels |
| `TicketIssue.ReplayIsNoOp` | backend/src/tickets/tickets.service.ts:52-63 | a repeated call issues nothing, whatever ids it draws |
| `TicketIssue.GateFindsTheTicketNamed` | backend/src/tickets/tickets.service.ts:69-92 | after any calls, a valid token whose hash is found names the very ticket found: what scanning and uploads rely on |
| `TicketIssue.TicketsService.GenerateTicketsForBooking` | backend/src/tickets/tickets.service.ts:32-100 | missing show; otherwise exactly the seats that had no ticket get one each, of this booking, show and tenant, labelled with row and number, with the token that names it; every confirmed seat then has a ticket |
| `TenantScope.EachTenantHasAPrivateDatabase` | backend/src/prisma/prisma-tenant.extension.ts:32-121 | for every interleaving of all tenants' calls, a tenant's answers and rows are those of its own calls alone on a private database |
| `TenantScope.OthersNeverShow` | backend/src/prisma/prisma-tenant.extension.ts:32-121 | non-interference: what others hold and do never shows |
| `TenantScope.IsolatedExactlyWhenSafe` | backend/src/prisma/prisma-tenant.extension.ts:37-117 | for every operation and table, the rewritten operation is isolated if and only if a condition checkable beforehand holds |
| `TenantScope.PlainOperationsAreSafe` | backend/src/prisma/prisma-tenant.extension.ts:37-117 | all operations but upsert and findUnique are safe with fresh ids and no tenantId in updates |
| `TenantScope.FilterMeaning` | backend/src/prisma/prisma-tenant.extension.ts:39 | the rewritten filter is the caller's filter on the tenant's own rows, OR lists and a caller's own tenantId included |
| `TenantScope.UpdatesIsolated` | backend/src/prisma/prisma-tenant.extension.ts:70-80 | updates are isolated exactly when they keep the tenant or match nothing |
| `TenantScope.UpsertIsolated` | backend/src/prisma/prisma-tenant.extension.ts:82-87 | upsert is isolated exactly when it hits an own row, or nothing and an id not taken elsewhere |
| `TenantScope.FindUniqueIsolated` | backend/src/prisma/prisma-tenant.extension.ts:49-53 | findUnique is isolated exactly when what it finds is the tenant's own |
| `TenantScope.CreateManyIsolated` | backend/src/prisma/prisma-tenant.extension.ts:61-68 | createMany is isolated exactly when no id that would be new to the tenant is taken elsewhere |
| `LockSweep.BatchesCompose` | backend/src/seat-locks/seat-lock.worker.ts:72-118 | two batches in a row are one batch of both, in all four tables |
| `LockSweep.ReleaseMeans` | backend/src/seat-locks/seat-lock.worker.ts:69-118 | the bulk release, row by row over all four tables: what each lock, booking, seat row and place becomes |
| `LockSweep.SeatLockWorker.ReleaseExpiredLocks` | backend/src/seat-locks/seat-lock.worker.ts:28-143 | for every batch size and database the loop ends with exactly the expired locks (with a failing batch, the oldest of them) RELEASED, their LOCKED bookings EXPIRED, the LOCKED places their seat rows name AVAILABLE without user or time, those rows EXPIRED, and nothing else changed |
| `LockSweep.SeatLockWorker.ReleaseBatch` | backend/src/seat-locks/seat-lock.worker.ts:69-118 | the same, row by row, for the locks of one batch |
| `LockSweep.SeatLockWorker.FindExpired` | backend/src/seat-locks/seat-lock.worker.ts:50-63 | the oldest expired locks in order, all of them if fewer than the batch size |
| `LockSweep.SeatLockWorker.FreeSeats` | backend/src/seat-locks/seat-lock.worker.ts:88-117 | the seat rows of the given bookings are EXPIRED, the LOCKED places they name AVAILABLE, all other rows and places untouched |
| `LockSweep.SweepIsIdempotent` | backend/src/seat-locks/seat-lock.worker.ts:49-67 | after a sweep no expired lock is left and a second sweep changes nothing |
| `LockSweep.SeatRowsKeptExactlyWhen` | backend/src/seat-locks/seat-lock.worker.ts:88-117 | when exactly a booking keeps its seat rows: its own status plays no part |
| `LockSweep.ConfirmedBeforeListing` | backend/src/seat-locks/seat-lock.worker.ts:50-63 | a confirmation that commits before the listing keeps its seat rows |
| `LockSweep.ConfirmedAfterListing` | backend/src/seat-locks/seat-lock.worker.ts:69-118 | one that commits between listing and transaction keeps the booking CONFIRMED, but its seat rows exactly when none of its locks was listed |
| `LockSweep.Untouched` | backend/src/seat-locks/seat-lock.worker.ts:74-110 | unexpired locks, bookings that are not LOCKED and places that are not LOCKED stay as they are |
| `ExpirySweep.DrainBound` | backend/src/bookings/bookings-expiry.service.ts:57-102 | a backlog of n is gone after exactly ceil(n/100) ticks, all of it closed and nothing else changed |
| `ExpirySweep.ClosedAreOldest` | backend/src/bookings/bookings-expiry.service.ts:66-67 | after any number of ticks what is closed is no younger than what is still due |
| `ExpirySweep.ClosedExactlyWhen` | backend/src/bookings/bookings-expiry.service.ts:59-102 | with some bookings failing at every tick, for ever: a due, healthy booking is closed at some tick if and only if fewer than a hundred failing ones are older |
| `ExpirySweep.ClosedInTime` | backend/src/bookings/bookings-expiry.service.ts:59-102 | and then within the ticks it takes to clear the healthy ones ahead at 100 less the failing ones a tick |
| `ExpirySweep.YoungerWaitsForever` | backend/src/bookings/bookings-expiry.service.ts:59-102 | the concrete queue: a healthy booking, due from the start, behind a hundred failing ones is LOCKED after any number of ticks |
| `ExpirySweep.JamRuns` | backend/src/bookings/bookings-expiry.service.ts:59-102 | that queue does run: the same hundred are listed again and again |
| `ExpirySweep.SettledIsNeverSwept` | backend/src/bookings/bookings-expiry.service.ts:76-96 | a booking that left LOCKED and PENDING or gained a payment id is never written by a sweep again, whatever happens between listing and transaction |
| `ExpirySweep.LoopIsOneUpdate` | backend/src/bookings/bookings-expiry.service.ts:74-102 | the loop of re-checked transactions is one update of the listed rows that commit, each once |
| `Sequences.TakeOldest` | backend/src/bookings/bookings-expiry.service.ts:59-68 | the limited, ordered query: the oldest rows, in order, all of them when fewer than the limit |
| `ExpirySweep.BookingExpiryService.HandleAutoExpiry` | backend/src/bookings/bookings-expiry.service.ts:48-108 | the oldest hundred LOCKED bookings past their expiry without a payment id are listed; exactly those whose transactions commit are EXPIRED, the seats of exactly those released, once each; no other row changes; nothing while a tick is running |
| `ExpirySweep.BookingExpiryService.HandleInitiatedCleanup` | backend/src/bookings/bookings-expiry.service.ts:116-169 | the oldest hundred PENDING bookings older than a quarter of an hour are listed; exactly those whose transactions commit are FAILED; no other row changes |
| `ExpirySweep.BookingExpiryService.FindOldest` | backend/src/bookings/bookings-expiry.service.ts:59-68 | the oldest due rows in order, at most a hundred, all of them if fewer |
| `CircuitBreaker.CountIsStreak` | backend/src/payments/payments.service.ts:69-88 | the counter is the length of the longest run of failures up to now with gaps within the window and no success |
| `CircuitBreaker.OpenExactlyWhenTripped` | backend/src/payments/payments.service.ts:57-88 | open exactly when some failure made a streak of five and neither a success nor a late enough check followed |
| `CircuitBreaker.RejectedExactlyWhen` | backend/src/payments/payments.service.ts:57-67 | a call is rejected exactly when the history has tripped the breaker and the cooldown since the last failure is not over |
| `CircuitBreaker.OpensOnlyOnAStreak` | backend/src/payments/payments.service.ts:76-82 | it opens only on a failure that makes the streak at least five |
| `CircuitBreaker.AdmissionAfterOpening` | backend/src/payments/payments.service.ts:57-67 | once open, a call is admitted only after a success or some check more than the cooldown after the failure before it |
| `CircuitBreaker.ReopeningTakesFiveFailures` | backend/src/payments/payments.service.ts:57-83 | after HALF_OPEN, opening again takes five further failures |
| `CircuitBreaker.FailedTrialDoesNotReopen` | backend/src/payments/payments.service.ts:60-82 | the call after a failed half-open trial is admitted at once |
| `CircuitBreaker.PaymentCircuit.CheckCircuit` | backend/src/payments/payments.service.ts:57-67 | the method's answer, in terms of the history alone |
| `CircuitBreaker.PaymentCircuit.RecordFailure` | backend/src/payments/payments.service.ts:69-83 | the field holds the streak of the history |
| `CircuitBreaker.PaymentCircuit.RecordSuccess` | backend/src/payments/payments.service.ts:85-88 | closed, nothing counted, and the history no longer trips the breaker |
| `AnomalyWindow.AnomalyDetectionService.TrackBooking` | backend/src/platform/anomaly-detection.service.ts:22-26 | the flag from the pruned lists is that of the complete history: more than 50 bookings or more than 30 failures of the tenant in the last minute |
| `AnomalyWindow.AnomalyDetectionService.TrackFailure` | backend/src/platform/anomaly-detection.service.ts:31-35 | the same for failures |
| `AnomalyWindow.AnomalyDetectionService.GetHealth` | backend/src/platform/anomaly-detection.service.ts:37-51 | both rates are the numbers of the tenant's events of the last minute in the complete history, and the flag compares them with 50 and 30 |
| `AnomalyWindow.Prune` | backend/src/platform/anomaly-detection.service.ts:68-70 | the filter keeps exactly the times after the cut-off, in order |
| `AnomalyWindow.PruneThenCount` | backend/src/platform/anomaly-detection.service.ts:64-74 | pruning loses nothing a later cut-off would keep |
| `AnomalyWindow.PruneExactlyWhen` | backend/src/platform/anomaly-detection.service.ts:68-70 | pruned counts are right exactly when nothing lies after the cut-off asked for but not after the one pruned at |
| `AnomalyWindow.RatesIgnoreOthers` | backend/src/platform/anomaly-detection.service.ts:53-62 | rates and flag of a tenant depend on its own events only |
| `AnomalyWindow.RateCounts` | backend/src/platform/anomaly-detection.service.ts:64-74 | the rate read off filtered lists is the number of the tenant's events in the last minute of the history |
| `Discount.DiscountsConserve` | backend/src/discount/discount.service.ts:71-167 | coupon, gift card and final amount are non-negative and make up the total, rounding is within half a paisa, charge plus discount is the total |
| `Discount.ConservesExactlyWhenWorth` | backend/src/discount/discount.service.ts:105-116 | the books balance exactly when the coupon's worth lies within half a paisa of the range from nothing to the total |
| `Discount.OrdinaryCouponsFit` | backend/src/discount/discount.service.ts:105-113 | fixed coupons, percentages up to 100, and capped ones with a cap within the total all qualify |
| `Discount.GiftCardNotOverdrawnExactlyWhen` | backend/src/discount/discount.service.ts:153-155 | the gift part stays within the balance exactly when it is not a rounded-up balance |
| `Discount.UncappedPercentageBreaks` | backend/src/discount/discount.service.ts:105-116 | an uncapped percentage of 200 or more discounts more than the total and credits the gift card |
| `Discount.DiscountService.ApplyDiscounts` | backend/src/discount/discount.service.ts:26-197 | refusals in the code's order leave everything alone; otherwise coupon part, gift part, discount and final amount are what coupon, card and total say, the codes' ids are stored, and the same code cannot be applied again |
| `Discount.CouponAmount` | backend/src/discount/discount.service.ts:105-115 | a fixed coupon takes its value or the whole total, a percentage its share or its cap, to the nearest paisa |
| `Discount.GiftCardAmount` | backend/src/discount/discount.service.ts:153-155 | all that is left to pay when the balance covers it, else the balance to the nearest paisa |
| `Discount.DiscountService.CheckCoupon` | backend/src/discount/discount.service.ts:80-103 | each refusal of a coupon exactly by its guard |
| `Discount.DiscountService.CheckGiftCard` | backend/src/discount/discount.service.ts:127-151 | each refusal of a gift card exactly by its guard |
| `Discount.GiftPartFits` | backend/src/discount/discount.service.ts:153-155 | between nothing and what is left to pay, when something is left |

## Left out

- Database isolation: each `$transaction` is atomic, as the code intends; `isReconciling` and the other guard flags assume one process.
- `createRazorpayOrder` is one step of the payment protocol; its recalculation of a missing total by the pricing service is not modelled.
- Seat-lock, seat-availability and booking-seat rows written inside the payment transactions; the lock sweep models those tables on its own.
- `releaseSeatsSafely` is not part of this model beyond the record of its calls.
- Dead-letter rows, system events, payment events, e-mails and realtime messages: written, never read by the modelled code.
- `refundPayment`, `PaymentService.handleWebhook`, `payments-reconciliation.service.ts` and `bookings.processor.ts`: other paths that write status without the ledger; the payment theorems assume they are not used.
- Services not shown (`BookingService.lockSeats`, `confirmBookingFromRazorpay`, `cancelBooking`): one environment step along the transition table.
- Amounts of a booking are those it has when it enters a payment run; discounts come before that; coupon and gift card applied in two separate calls overwrite one another and are not modelled.
- Event and seat look-ups of a booking request are one step: the catalogue does not change.
- A lock-expiry job may run at any time, even before its lock's lease is over: the queue and Redis keep their own clocks.
- A scan that crashes simply takes no further step; a crash between the scans of a batch is an upload of a prefix.
- Bookings without a tenant, which the reconciliation loops skip, and how the webhook controller finds the booking of a payment (notes, then order id).
- A tenant's id and its slug are taken to be one name; glob characters in names of the KEYS pattern are not modelled.
- Token text: strings are Unicode scalar values (no lone surrogates), numbers are integers, and the reader accepts the layout the printer writes, in strict base64, so correctly signed text of another layout is turned down.
- Query options such as `orderBy`, `skip`, `select` and relations in the tenant rewriter; answers come in table order. An update does not change a row's id, and `createMany` takes a list (a single object is a list of one).
- Seat numbers are natural numbers; a seat without a number is not modelled.
- Discounts are computed exactly, without the 20-digit precision of decimal division.
- Ticket codes, QR images and the HMAC comparison's timing.
- Controllers other than the webhook switch, guards, validation, analytics, pricing and tenant administration: look-ups and plumbing that would add only easy members.
