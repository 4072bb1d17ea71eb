# Salon management: verified models

A Dafny model of the parts of the salon system whose correctness spans many requests: the lease that
serialises production deployments, checkout and register accounting with its point ledger, booking
capacity and availability, treatment charts with their photo collector, and the resumable imports.
`dafny verify dfyconfig.toml` checks everything.

How it is organised:

- `Lease`, `LeaseClient`, `EmailDrain`: the deployment lease as a step machine in which requests may be
  lost, delayed, duplicated and reordered, the deployment's own code as a class that takes steps of
  that machine, and the paged listing of running e-mail workers.
- `CashSplit`, `CashDraft`, `Receipt`: the amounts of a checkout (largest-remainder points discount, tax
  rounded once per rate), and the two consumers that check those amounts again.
- `CashBook` (operations as functions from one committed state to the next), `CashEffects`,
  `CashLedger`, `CashChain`, `CashRegisters` (what each operation keeps), `CashSafety` (all reachable
  states), `CashReplay` (repeated requests), `CashOutcomes` (exactly when operations succeed),
  `CashTransitions` (what accepted ones change), `CashDesk` (settling and reversing as methods on mutable tables).
- `CustomerVisits`: the visit count and last visit kept on a customer's row, and when they are behind.
- `Capacity`, `Placement`, `MemberBooking`: the sweep for the peak, the placement rules over whole runs,
  and the agreement between offered slots and the booking transaction.
- `Charts`: revisions, photos, uploads and cleanups interleaved.
- `CanonicalJson`, `ChecksumBytes`, `CustomerImport`, `StaffLinks`: the canonical text behind the checksums
  and the bytes that are hashed, the chunked import, and the plan that links imported history to staff.
- `Common`, `Tables`, `Reservations`: shared vocabulary.

## Assumptions

- A serializable transaction is one atomic step, and a transaction that throws changes nothing.
- A conditional request on the lease object takes effect only if both numbers it names are current, and
  a generation is never used twice. A recorded intent precedes its mutation, and a build whose state is
  terminal issues nothing more (`Lease.Dead` takes no further step). A provisioning run notes each phase at most
  once, being straight-line code; its `note` would overwrite, while the machine refuses a phase noted before.
- A checksum or request hash is modelled by the value that is hashed, so that equal hashes stand for
  equal contents. Randomly drawn identifiers are fresh.
- Money is in whole yen within the limits the request schemas enforce, so products stay exact; tax is the
  exact integer floor of `total * rate / (100 + rate)`.
- Japan is nine hours ahead of UTC all year; instants are integers and dates are day numbers.
- Rows created later come later in the order by creation time.

## Where the code does less than its comments suggest

- A create request that is answered with an existing checkout does not store its request number. Once
  that checkout has been reversed, the same request creates a new one. `CashReplay.CreateReplayFails`
  is such a run, `CashReplay.CreateReplayIff` says exactly when repeating a creation changes nothing, and
  `CashReplay.CreateReplay` that a creation which did store its number is safe for ever.
- A line's tax can exceed the line's total; `CashDraft.TaxAboveTotalIff` says exactly when.
- Lowering a capacity limit does not look at what is already booked; `Placement.LoweringBreaksTheLimit`
  reaches such a state, `Placement.StepKeepsLimitsIff` and `Placement.RunKeepsLimitsIff` say exactly which
  changed limits keep the salon within its limits, and `Placement.RunKeepsLimits` that raising them always does.
- A lease whose recorded intent was never followed by its mutation can never be recovered by a waiter;
  `Lease.FenceIsReached` reaches that state and `Lease.RecoverableIffIssued` gives the exact condition.
- A reservation that is booked as already completed does not count as a visit: its booking, unlike an edit, is not
  followed by a recalculation. `CustomerVisits.MissedUntilEdited` is a family of such runs and
  `CustomerVisits.VisitsExactIff` says exactly how far behind the customer's row is.
- A customer who was imported and then deleted is not brought back by sending the chunk again
  (`CustomerImport.ChunkReplay`); a later file that names the id creates and counts the customer again
  (`CustomerImport.LostIsCreatedAgain`), so created counts can exceed the customers there are by exactly the
  number deleted (`CustomerImport.OneCustomerPerId`).

## Model

| member | source | states |
|---|---|---|
| Lease.RunKeeps | scripts/native-deploy.py:403-522 | one invariant of lock, snapshots, pending requests and issued mutations holds in every interleaving |
| Lease.UnsettledBelongToTheHolder | scripts/native-deploy.py:132-182 | every unsettled mutation belongs to the generation now in the bucket and is recorded there as an intent its owner may request |
| Lease.AtMostOneUnsettledOwner | scripts/native-deploy.py:430-474 | two unsettled mutations always belong to the same lease generation |
| Lease.EachPhaseRequestedOnce | scripts/native-deploy.py:154-157 | no phase is issued twice under one generation, whatever is lost or repeated |
| Lease.RemovedOnlyWhenSettled | scripts/native-deploy.py:413-420 | the lock leaves the bucket only by a delete naming its exact generation and metageneration, when its owner is quiet and all intents are settled; a provisioning lease only by its own run |
| Lease.DeleteIsJustified | scripts/native-deploy.py:464-489 | whatever a deployment asks to be deleted is a lock it read with every intent settled, its own or that of a dead build |
| Lease.GoneForGood | scripts/native-deploy.py:430-440 | a removed generation never returns and nothing is issued under it again |
| Lease.FenceRetained | scripts/native-deploy.py:268-275 | a dead build's intent without its mutation keeps the lease in every continuation |
| Lease.RecoverableIffIssued | scripts/native-deploy.py:465-471 | a dead build's lease can be recovered by some schedule exactly when every recorded intent was issued |
| Lease.FenceIsReached | scripts/native-deploy.py:132-182 | any build that dies between its first recorded intent and the mutation reaches that state, and its lease is never recovered |
| Lease.Recover | scripts/native-deploy.py:441-471 | with all children settled, a fresh waiter's own steps remove the dead build's lease |
| Lease.OwnerReleases | scripts/native-deploy.py:476-491 | an owner whose recorded work has finished needs only its own answered requests to give the lease up |
| Lease.ReleaseAfterAbandonedMark | scripts/native-deploy.py:176-182 | so does one whose last mark was refused or never answered, while that mark has not taken effect |
| LeaseClient.ProductionLease.Acquire | scripts/native-deploy.py:430-474 | in any surroundings, with other steps before every request, the loop ends owning the lock under its generation or having raised, and every delete it sent was justified |
| LeaseClient.ProductionLease.MarkIntent | scripts/native-deploy.py:132-182 | when marking succeeds the intent is in the client's own lock and its mutation has not been issued; with its answer lost the client does not go on |
| LeaseClient.ProductionLease.IssueMutation | scripts/native-deploy.py:132-182 | whatever happened since its intent was marked, a mutation is issued under the client's own lock that records it, and for the first and only time |
| LeaseClient.ProductionLease.Release | scripts/native-deploy.py:476-491 | either the delete of its own generation was sent and every intent read with it has settled, or it never was and the lease is retained |
| EmailDrain.UnfinishedExecutions | scripts/native-deploy.py:215-265 | succeeds exactly on a complete, readable listing without repeated tokens, and then reports exactly the unfinished executions of other images |
| EmailDrain.ClearIff | scripts/native-deploy.py:239-256 | on a complete listing nothing is reported exactly when every execution runs the expected image or has certainly finished |
| CashSplit.SplitSum | apps/api/src/cash-domain.ts:119-131 | the parts of the points discount add up to it exactly |
| CashSplit.SplitShare | apps/api/src/cash-domain.ts:122-127 | every part is the floor or the ceiling of its exact share, never above the line total |
| CashSplit.ServedHasRemainder | apps/api/src/cash-domain.ts:128-130 | an extra yen goes only to a line with a remainder |
| CashSplit.SplitIsOptimal | apps/api/src/cash-domain.ts:119-131 | among all integer splits with the same sum, this one minimises the total deviation from the exact shares |
| CashDraft.SortAllocation | apps/api/src/cash-domain.ts:129-129 | the sorted order lists every line once, larger remainders first, earlier lines first among equals |
| CashDraft.OrderServes | apps/api/src/cash-domain.ts:128-130 | walking the sorted order serves the same lines as choosing the best remaining line each time |
| CashDraft.AllocatePoints | apps/api/src/cash-domain.ts:121-131 | the in-place allocation writes exactly that split |
| CashDraft.LeftoverFewerThanLines | apps/api/src/cash-domain.ts:137-143 | the leftover tax of a rate is not negative and smaller than its number of lines |
| CashDraft.GroupTaxIsShared | apps/api/src/cash-domain.ts:138-145 | line taxes of a rate add up to the tax floored once on the group total |
| CashDraft.TaxAboveTotalIff | apps/api/src/cash-domain.ts:142-143 | a line's tax exceeds its total exactly for a zero total early enough in its group |
| CashDraft.TaxAboveTotalExample | apps/api/src/cash-domain.ts:142-143 | totals 0, 5 and 6 at ten percent put a yen of tax on the free line |
| CashDraft.ShareGroupTax | apps/api/src/cash-domain.ts:137-145 | one rate's loop returns its group and tops up exactly its first lines |
| CashDraft.CalculateDraft | apps/api/src/cash-domain.ts:104-150 | the whole in-place calculation, refusals included, equals its specification |
| CashDraft.AcceptedAmounts | apps/api/src/cash-domain.ts:104-136 | no line total of an accepted draft is negative; lines, points and receipt total add up |
| CashDraft.CalculateIff | apps/api/src/cash-domain.ts:96-149 | which drafts are priced: covered discounts, prices and payments within the limit in total, points within what is left; all other limits then hold |
| Receipt.SettlementRefusal | apps/api/src/cash-domain.ts:152-164 | a draft may be settled exactly when it allocates its total, its prepayments are acknowledged and referenced, a paid reservation only records prepayments and a refunded one is a correction |
| Receipt.TaxTotals | apps/api/src/cash-domain.ts:137-147 | the receipt's tax is the sum of its line taxes and at most its total |
| Receipt.SettledDraftIsConsistent | apps/api/src/receipt-email.ts:42-66 | whatever passes calculation and settlement passes the receipt's schema and consistency check and the notification's |
| Receipt.ConsistentReceiptIsTheDraft | apps/api/src/receipt-email.ts:42-66 | the check is tight: any receipt that lists a draft's items, points per line and rates and passes shows the draft's totals, tax and tax groups |
| CashEffects.StoredDraftIsCurrent | apps/api/src/cash-routes.ts:266-271 | the totals and selection recomputed at finalization are the stored ones |
| CashEffects.FinalizeChecked | apps/api/src/cash-routes.ts:257-278 | no finalization without a standing, unchanged reservation, payments that add up and an open register of today |
| CashDesk.Desk.FinalizeMembershipPoints | apps/api/src/membership-domain.ts:93-111 | validation, the check of earlier entries and the two bookings, as specified |
| CashDesk.Desk.ReverseMembershipPoints | apps/api/src/membership-domain.ts:113-128 | the loop books the opposite of every original entry, or refuses as specified |
| CashDesk.Desk.RefreshAccounting | apps/api/src/accounting-stats.ts:3-18 | the cached total becomes the sum over the customer's finalized checkouts |
| CashDesk.Desk.FinalizeCheckout | apps/api/src/cash-routes.ts:244-302 | finalization with points, register and reservation, rolled back as a whole on any refusal |
| CashDesk.Desk.ReverseCheckout | apps/api/src/cash-routes.ts:304-337 | reversal with points, register and reservation, rolled back as a whole on any refusal |
| CashLedger.FinalizeAppends | apps/api/src/membership-domain.ts:93-111 | with nothing booked for a checkout, settling appends exactly its redemption and its earning |
| CashLedger.EntryIsBookedOnce | apps/api/src/membership-domain.ts:72-91 | a booked entry stays, booking it again changes nothing, any other for the same checkout and kind is refused |
| CashLedger.RedemptionIsCovered | apps/api/src/membership-domain.ts:98-109 | the balance is not negative after the redemption entry nor after the whole settlement |
| CashLedger.ReverseKeepsLedger | apps/api/src/membership-domain.ts:113-128 | reversing a finalized checkout always succeeds on the ledger and keeps all balances and debts accounted for |
| CashChain.EditKeepsTotals | apps/api/src/server.ts:1281-1328 | a reservation edit, change of customer included, keeps every cached total exact |
| CashChain.EditKeepsContexts | apps/api/src/server.ts:1300-1308 | an edit leaves every finalized checkout agreeing with its reservation |
| CashChain.RecalculationIsIdle | apps/api/src/server.ts:437-450 | the recalculation after an edit finds nothing to correct in the cached total |
| CustomerVisits.LastIff | apps/api/src/server.ts:440-447 | the last visit is the latest start among completed reservations, absent exactly when the count is zero |
| CustomerVisits.VisitsExactIff | apps/api/src/server.ts:437-450 | in any interleaving, once the edits of a customer's reservations have been recalculated, the count is short by exactly the reservations booked as completed since, and the last visit is right exactly when none of them is later |
| CustomerVisits.EditThenExact | apps/api/src/server.ts:1309-1328 | whatever was wrong before, an edit and the recalculations it owes make the rows of both customers exact and touch no other |
| CustomerVisits.BookingKeepsExactIff | apps/api/src/server.ts:1207-1223 | an exact row stays exact under a booking exactly when the booking is not already completed |
| CustomerVisits.MissedUntilEdited | apps/api/src/server.ts:1207-1260 | a new customer's first visit, booked as completed, stays uncounted in every continuation until one of the customer's reservations is edited |
| CashSafety.RunKeeps | apps/api/src/cash-routes.ts:165-500 | one invariant of rows, ledger, chains, cached totals, registers and request numbers holds after any operations of any salons |
| CashSafety.BalanceIsNetPoints | apps/api/src/membership-domain.ts:34-43 | in every reachable state an account's ledger sum is the points awarded less used over its finalized checkouts |
| CashSafety.RedemptionNeverOverdraws | apps/api/src/membership-domain.ts:93-111 | in every reachable state, finalizing with points leaves the balance at zero or more |
| CashSafety.DebtIsClawedBack | apps/api/src/membership-domain.ts:119-127 | a debt never exceeds the earnings that reversals have taken back |
| CashSafety.CachedTotalIsExact | apps/api/src/accounting-stats.ts:15-18 | every customer's cached total is exact in every reachable state |
| CashSafety.PaymentStatusFollows | apps/api/src/cash-routes.ts:293-327 | a reservation with a finalized checkout is paid; one whose last checkout is reversed is refunded |
| CashSafety.FinalizedContextStands | apps/api/src/cash-routes.ts:262-265 | a finalized checkout and its reservation agree on customer, service, staff and time in every reachable state |
| CashSafety.OneCorrectionChain | apps/api/src/cash-routes.ts:172-193 | a reservation's checkouts form one chain: all but the last are reversed and each supersedes the one before |
| CashSafety.RegisterHoldsWhatWasSettled | apps/api/src/cash-routes.ts:96-116 | expected cash is opening plus in minus out plus cash settled minus cash reversed there, between zero and the limit |
| CashSafety.ClosedReportReconciles | apps/api/src/cash-routes.ts:466-491 | the cash row of a closing report explains its expected cash and the net amounts by method sum to the net total |
| CashSafety.ClosedStaysClosed | apps/api/src/cash-routes.ts:465-495 | a closed register never changes and its report stays true in every later state |
| CashSafety.FinalizedAmountsAreConsistent | apps/api/src/checkout-notification.ts:17-22 | every finalized or reversed checkout satisfies the receipt's and the notification's checks |
| CashReplay.SettledForGood | apps/api/src/cash-routes.ts:283-290 | the ledger only grows, and a settled checkout keeps its amounts, payments, member and reservation |
| CashReplay.StaleVersionRefused | apps/api/src/cash-domain.ts:186-189 | once a checkout has moved past a version, every draft change based on that version is refused for ever |
| CashReplay.NoLostUpdate | apps/api/src/cash-routes.ts:218-235 | of two edits of the same version at most one is accepted, whatever happens in between |
| CashReplay.FinalizeReplay | apps/api/src/cash-routes.ts:253-256 | finalizing again with the same request, at any later time, succeeds and changes nothing |
| CashReplay.ReverseReplay | apps/api/src/cash-routes.ts:314-317 | reversing again with the same request succeeds and changes nothing |
| CashReplay.OpenReplay | apps/api/src/cash-routes.ts:406-411 | opening again with the same request, even on a later day, succeeds and changes nothing |
| CashReplay.MoveReplay | apps/api/src/cash-routes.ts:432-437 | recording the same movement again, even after closing, succeeds and changes nothing |
| CashReplay.CloseReplay | apps/api/src/cash-routes.ts:461-464 | closing again with the same request succeeds and changes nothing |
| CashReplay.CreateReplay | apps/api/src/cash-routes.ts:172-177 | a creation whose number was stored is safe to repeat for ever |
| CashReplay.CreateReplayIff | apps/api/src/cash-routes.ts:172-180 | an accepted creation changes nothing exactly when its number is stored or the reservation has a checkout that is not reversed |
| CashReplay.CreateAfterReversal | apps/api/src/cash-routes.ts:178-179 | a request answered with a finalized checkout it did not create adds a new one once that is reversed |
| CashReplay.CreateReplayFails | apps/api/src/cash-routes.ts:178-179 | a concrete reachable state and steps in which that happens |
| CashOutcomes.PreparedPointsAreBooked | apps/api/src/membership-domain.ts:93-111 | what preparation accepts, the ledger's own validation never refuses |
| CashOutcomes.BookingAgainIsIdle | apps/api/src/membership-domain.ts:97-107 | settling the same points again passes the validation with the restored debit and books nothing more |
| CashOutcomes.CorrectionIsAllowed | apps/api/src/cash-routes.ts:272-274 | the checkout a correction supersedes is always reversed and of the same reservation |
| CashOutcomes.CreateIff | apps/api/src/cash-routes.ts:178-190 | a checkout is added exactly for a standing reservation whose price covers a usable selection |
| CashOutcomes.UpdateIff | apps/api/src/cash-routes.ts:218-229 | in a reachable state, exactly when a draft is replaced, in terms of the items, payments and points sent |
| CashOutcomes.FinalizeIff | apps/api/src/cash-routes.ts:253-294 | in a reachable state, exactly when a finalization succeeds; recomputed totals, point validation and corrections never refuse |
| CashOutcomes.ReverseIff | apps/api/src/cash-routes.ts:311-329 | in a reachable state, exactly when a reversal succeeds: only the account must exist, active or linked or not |
| CashOutcomes.MoveIff | apps/api/src/cash-routes.ts:438-440 | cash moves exactly on an open register at its version that can hold or give it |
| CashOutcomes.CloseIff | apps/api/src/cash-routes.ts:465-466 | in a reachable state the expected cash never stands in the way of closing |
| CashOutcomes.PaymentStatusOnlyThroughCheckouts | apps/api/src/cash-routes.ts:293-327 | no operation but settling and reversing a checkout changes a reservation's payment status |
| CashTransitions.OneEntryOfEachKind | apps/api/src/membership-domain.ts:77-90 | in every reachable state a checkout has at most one ledger entry of each kind |
| CashTransitions.CreationExtendsTheChain | apps/api/src/cash-routes.ts:178-201 | a creation adds one row and changes nothing else: the reservation's price less points and its context, the only checkout not reversed, superseding the one before |
| CashTransitions.UpdateReplacesContents | apps/api/src/cash-routes.ts:227-236 | an updated draft holds the items and payments sent and owes their total less discounts and points, one version on; the same update is then stale |
| CashTransitions.RefreshMatchesTheReservation | apps/api/src/cash-routes.ts:345-363 | a refreshed draft takes its reservation's context and price and then passes the checks before settling exactly when nothing is to be paid, was prepaid or was refunded without a correction; while its context differed it never passed them |
| CashTransitions.UpdatingKeepsAStaleContext | apps/api/src/cash-routes.ts:262-265 | a draft whose reservation changed cannot be settled, and updating it does not help |
| CashTransitions.OneRegisterADay | apps/api/src/cash-routes.ts:413-414 | in every reachable state a salon has at most one register of a day and at most one open |
| CashTransitions.OpeningStartsTheDay | apps/api/src/cash-routes.ts:404-421 | a new register is today's, holds exactly the opening amount, and all earlier ones of the salon are closed |
| CashTransitions.MovementMovesItsAmount | apps/api/src/cash-routes.ts:438-444 | a movement changes its register's cash by exactly its amount, no other register's, and sending it again changes nothing |
| CashTransitions.ClosedTakesNothing | apps/api/src/cash-routes.ts:465-495 | whatever happens after closing, the register's cash, movements, sales and refunds stay as they were |
| Capacity.PeakConcurrentReservations | apps/api/src/reservation-capacity.ts:28-50 | the sweep's result is the maximum over all instants of the half-open interval of the reservations containing it |
| Capacity.SortEvents | apps/api/src/reservation-capacity.ts:41-42 | the events are a sorted permutation, ends before starts |
| Capacity.PeakIsPeak | apps/api/src/reservation-capacity.ts:27-50 | the peak as a function, found at starts only, is the same maximum |
| Placement.ReservationCapacityProblem | apps/api/src/reservation-capacity.ts:53-98 | the check with the sweep gives the first problem of the rules, in their order |
| Placement.AcceptedHasRoom | apps/api/src/reservation-capacity.ts:84-93 | an accepted request finds room for one more at every instant of its interval, in the salon and for the staff member |
| Placement.PlacementWithinLimits | apps/api/src/server.ts:1172-1224 | a committed placement leaves its interval within both limits and raises occupancy nowhere else |
| Placement.NeverRaisedOverLimit | apps/api/src/server.ts:1284-1347 | no step raises the salon's occupancy at any instant above the limit in force |
| Placement.StaffNeverRaisedOverLimit | apps/api/src/server.ts:1284-1347 | no step raises a staff member's occupancy above the capacity in force |
| Placement.ChangesAreChecked | apps/api/src/server.ts:1281-1347 | bookings are never dropped, recorded ones keep time and staff, and every change that leaves a counting booking was checked |
| Placement.RunKeepsLimits | apps/api/src/reservation-capacity.ts:100-108 | while limits are not lowered, every reachable state stays within them at every instant |
| Placement.StepKeepsLimitsIff | apps/api/src/reservation-capacity.ts:84-93 | within the limits, a step stays within them exactly when a changed limit is not negative and covers the occupancy at the start of each counted booking it concerns |
| Placement.RunKeepsLimitsIff | apps/api/src/reservation-capacity.ts:84-108 | a run stays within the limits throughout exactly when every changed limit fits the bookings it meets |
| Placement.LimitHoldsIff | apps/api/src/reservation-capacity.ts:28-50 | a limit holds at every instant exactly when it holds at the finitely many starts of counted bookings |
| Placement.LoweringBreaksTheLimit | apps/api/src/reservation-capacity.ts:84-86 | an empty salon reaches a state within its limit in two creations from which an accepted lower limit is exceeded |
| MemberBooking.GreedyReach | apps/api/src/member-booking-domain.ts:145-149 | the greedy pass covers everything before its reach and nothing covers the reach itself |
| MemberBooking.MemberStaffIsWorking | apps/api/src/member-booking-domain.ts:141-153 | true exactly for active non-room staff with every instant covered by own available shifts and no other shift overlapping |
| MemberBooking.MemberSlotIsAvailable | apps/api/src/member-booking-domain.ts:154-158 | working staff and both peaks below their limits |
| MemberBooking.MemberAvailabilitySlots | apps/api/src/member-booking-domain.ts:159-175 | lists exactly the free slots at the bookable minutes of the day, in time order, each once for different staff |
| MemberBooking.CutoffBeforeStart | apps/api/src/member-booking-domain.ts:77-89 | a cutoff is never after the start, and a day cutoff falls on the date that many days before |
| MemberBooking.BeforeCutoffIff | apps/api/src/member-booking-domain.ts:77-89 | which settings give a cutoff, and when an instant is before it, in Japanese dates and times of day |
| MemberBooking.ReachOnlyGrows | apps/api/src/member-booking-domain.ts:61-76 | the last bookable day never moves back from one day to the next, for windows of days and of calendar months |
| MemberBooking.BookableFromWindowToCutoff | apps/api/src/member-booking-domain.ts:122-132 | a start that can ever be booked can be booked exactly from the midnight on which its day comes within reach up to its cutoff |
| MemberBooking.CancellableUntilCutoff | apps/api/src/member-booking-domain.ts:133-137 | a reservation that could ever be cancelled can be cancelled exactly before its cutoff |
| MemberBooking.SameWorking | apps/api/src/member-booking-routes.ts:186-188 | two readings of the shifts that both contain the relevant ones decide alike |
| MemberBooking.SamePeaks | apps/api/src/reservation-capacity.ts:60-67 | reading only overlapping reservations gives the same peaks as reading the day's |
| MemberBooking.OfferedIffAccepted | apps/api/src/member-booking-routes.ts:177-190 | with unchanged tables and time a minute is offered exactly when the booking transaction accepts it |
| MemberBooking.ListedSlotIsAccepted | apps/api/src/member-booking-routes.ts:127-142 | every listed slot can be booked as shown, price included |
| Charts.Collector.Cleanup | apps/api/src/chart-photo-cleanup.ts:6-28 | rows whose removal fails stay, all others lose object and row, nothing else is touched |
| Charts.RunKeeps | apps/api/src/chart-routes.ts:239-438 | the invariant of charts, rows, storage, uploads and cleanups holds in every interleaving |
| Charts.ShownPhotosAreKept | apps/api/src/chart-photo-cleanup.ts:4-20 | a photo shown by any revision has a live row of that chart and its object in storage |
| Charts.ShownOrTombstone | apps/api/src/chart-routes.ts:426-432 | every row is shown or a tombstone, never both |
| Charts.NoObjectIsLost | apps/api/src/chart-photo-cleanup.ts:4-20 | every object in storage has a row or belongs to an upload still running or ended in doubt; a cleanup drops a row only after its object |
| Charts.OnlyLastIsDraft | apps/api/src/chart-routes.ts:165-183 | only the highest revision can be a draft, and none has more than ten photos |
| Charts.OneChartPerReservation | apps/api/src/chart-routes.ts:247-255 | a reservation has at most one chart |
| Charts.StepEvolves | apps/api/src/chart-routes.ts:177-183 | each change bumps a chart's version by one and leaves its finalized revisions alone |
| Charts.FinalizedForGood | apps/api/src/chart-routes.ts:302-349 | a finalized revision and its photos are the same in every later state |
| Charts.TombstoneForGood | apps/api/src/chart-photo-cleanup.ts:4-5 | a tombstoned photo is never shown again |
| Charts.CurrentIff | apps/api/src/chart-routes.ts:165-183 | in a state within the invariant the current revision is never missing: it is found exactly at the chart's version |
| Charts.SavingChangesTheLastContent | apps/api/src/chart-routes.ts:282-300 | exactly when a draft is saved, and that nothing but the last content and the version changes and no photo appears or disappears |
| Charts.FinalizingFreezes | apps/api/src/chart-routes.ts:302-322 | after finalizing nothing is changed at any version; an amendment at the new version is the only way on |
| Charts.AmendmentCopiesTheFinal | apps/api/src/chart-routes.ts:324-349 | an amendment adds one draft copying content and photos of the finalized revision, and a second one has to wait |
| Charts.AttachDetach | apps/api/src/chart-routes.ts:379-435 | attaching an uploaded photo and detaching it again restores the revisions and leaves a tombstone |
| Charts.DetachingBuriesIff | apps/api/src/chart-routes.ts:419-435 | a detached photo becomes a tombstone exactly when no earlier revision of its chart shows it; all other rows stay |
| Charts.InheritedPhotoSurvives | apps/api/src/chart-routes.ts:427-432 | a photo taken over by an amendment is never buried by detaching it |
| Charts.RemovedObjectLosesItsRow | apps/api/src/chart-photo-cleanup.ts:16-21 | a cleanup that has removed an object always deletes its row |
| CanonicalJson.QuotedReads | apps/api/src/customer-import.ts:67-69 | a quoted string can be read back whatever follows it |
| CanonicalJson.CanonReads | apps/api/src/customer-import.ts:63-70 | two texts that agree with what follows come from values that mean the same |
| CanonicalJson.SameMeaningSameCanon | apps/api/src/customer-import.ts:62-70 | key order and undefined members do not change the text |
| CanonicalJson.CanonicalIff | apps/api/src/customer-import.ts:63-71 | the text is equal exactly when the values are, up to key order and undefined members |
| ChecksumBytes.CanonIsClean | apps/api/src/customer-import.ts:67-69 | the canonical text never contains a control unit or a surrogate without its partner |
| ChecksumBytes.SameBytesIff | apps/api/src/customer-import.ts:71-71 | any two texts have the same UTF-8 bytes exactly when they differ only in surrogates without a partner |
| ChecksumBytes.HashedBytesIff | apps/api/src/customer-import.ts:71-71 | the hashed bytes are equal exactly when the values are, up to key order and undefined members |
| CustomerImport.HashGivesId | apps/api/src/customer-import-routes.ts:99-100 | a record that matches its manifest entry carries the same external id |
| CustomerImport.Importer.ImportChunk | apps/api/src/customer-import-routes.ts:93-125 | the chunk handler, record by record, equals its specification |
| CustomerImport.RunAccounting | apps/api/src/customer-import-routes.ts:37-46 | created plus skipped is the size of the distinct processed chunks, and a run is complete exactly when every chunk is processed |
| CustomerImport.OneCustomerPerId | apps/api/src/customer-import-routes.ts:107-117 | with customers deleted in between: exactly the imported ids have a customer or have lost it, one each, and customers now plus deletions are those at the start plus those created |
| CustomerImport.LostIffDeletedSince | apps/api/src/server.ts:999-1013 | an imported id lacks a customer exactly when a deletion took it and no import has created it since |
| CustomerImport.LostIsCreatedAgain | apps/api/src/customer-import-routes.ts:107-117 | a deleted customer is created again, and counted again, by the next new chunk that names it |
| CustomerImport.OrderDoesNotMatter | apps/api/src/customer-import-routes.ts:93-125 | the same files and chunks, prepared and sent in any order with repetition and deletions interleaved, import the same ids; without deletions the same total is created |
| CustomerImport.ChunkReplay | apps/api/src/customer-import-routes.ts:103-105 | an accepted chunk sent again, at any later time, is accepted and changes nothing, even if customers were deleted |
| CustomerImport.FoundRunIsThisFile | apps/api/src/customer-import.ts:71-75 | a run found by a file's checksum carries the manifest of that file's records |
| CustomerImport.PrepareReplay | apps/api/src/customer-import-routes.ts:61-66 | preparing the same file again, at any later time, finds its run with that file's manifest and count |
| StaffLinks.BuildPlan | apps/api/src/history-staff-links.ts:40-77 | grouping and issues in one pass give the plan |
| StaffLinks.GroupsPartition | apps/api/src/history-staff-links.ts:44-49 | the group sizes add up to the number of named records |
| StaffLinks.ReadyIff | apps/api/src/history-staff-links.ts:50-71 | a plan is ready exactly when every record is named, agrees with its group and is linked to nobody else |
| StaffLinks.Linker.Apply | apps/api/src/history-staff-links.ts:121-148 | applying group by group, rolled back when incomplete, equals its specification |
| StaffLinks.ReadyPlanApplies | apps/api/src/history-staff-links.ts:143-144 | applying a ready plan never comes out incomplete and links every record to its registered staff member |
| StaffLinks.ApplyReachesFixedPoint | apps/api/src/history-staff-links.ts:116-149 | it creates exactly the announced staff, keeps the checksum, leaves nothing pending, and a second apply creates nothing |

## Left out

- Cloud resource names, digests, baselines and regions in the lease: a child is accepted, running or settled, and a read of it is one step.
- Lease.UnsettledBelongToTheHolder: bounds mutations recorded through the lease; what a build does outside its intents is not modelled.
- LeaseClient.ProductionLease.Release: does not say that the lock is gone afterwards, because a delayed repeat of the client's own intent patch can change the metageneration first; the lease is then retained.
- The provisioning client's own code: its steps are in the lease machine, its requests are not a class.
- The clock limits of the lease wait and of the e-mail listing.
- The remaining accounting and chart handlers as methods: only settling, reversing and the photo collector have loops or roll back several tables; the others are functions from one committed state to the next.
- Item labels, notes, names, audit rows, notification and receipt delivery inside the accounting transactions.
- Checkout ids inside a closing report, and the order of rows by finalization time.
- Several membership programs: the model has one, shared by all salons; balances beyond safe integers are not refused.
- Edits refused for capacity, and the payment and cutoff conditions of a member's cancellation, in the visit model: it allows more steps than the program.
- CashBook.Edit: leaves the capacity check of an edit to the placement model.
- CashBook.Update: a malformed draft is refused where its contents are first needed, so when several things are wrong at once another refusal than the schema's may be named.
- Number formatting: a JSON number is identified with the text in which it is written.
- canonicalJson on arrays that contain undefined, which JSON texts never produce and which print like shorter arrays.
- The calendar: which days are open is a parameter, public holidays with it; the booking window is given in days or months, not as the setting's text.
- Limits on rows read (5,000 shifts or reservations, 10,001 history records) and paging.
- Rate limits, customer links and e-mail in the member booking transaction; the number of future reservations is a parameter.
- Reservation, service and staff records besides what capacity and accounting read.
- Order of groups in a staff-link plan: first appearance here, hash order in the program; names are compared through given functions.
- Chart photos whose bytes are in their row, from before photos were stored as objects.
- Recovering an upload whose outcome is unknown: its object may stay in storage without a row, as in the program.
- The history import, which repeats the customer import's machine.
- Request plumbing, permissions, text validation, the database's locking and retries.
- The e-mail outbox, whose completion updates are not guarded by the claim and would need timing assumptions.
