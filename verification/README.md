# Seats, orders, payments and tickets: a verified model

Buyers hold a seat, order it, pay, and later open their tickets. Four services share no database
and call each other over HTTP; a Redis key with a time to live and a few unique constraints are
the only things that order concurrent callers. This project models that protocol in Dafny, with
the services around it that work on the same data, and proves what every run of it keeps. Where
a natural promise does not hold of the code, it proves the run that breaks it and the exact
condition under which it holds.

## How it is organised

Each stateful service appears twice: as functions from table contents to table contents, about
which the run theorems speak, and as a class that changes its fields step by step, as the service
does, whose methods are proved equal to those functions.

| files | what they model |
|---|---|
| `Venue`, `HoldsService` | seat holds and the sold ledger, one service call a step |
| `HoldCommands`, `HoldRaces` | the same calls as single Redis and database commands, any number of callers interleaved; when a check-then-act call hits the wrong hold |
| `SeatMaps`, `SeatMapsService`, `TableStatus` | seat-map authoring, publication, seat lookup, table booking status |
| `Pricing`, `Orders`, `OrdersService`, `OrderRuns`, `OrderClaims` | create, cancel, confirm; discounts, quantity limits, promo counters, seat claims |
| `Reports` | event and restaurant reports, tied back to order pricing |
| `Payments`, `PaymentsService` | PayHere notices, proofs, and the confirm-then-mark-sold orchestration |
| `Protocol` | all of it as one state machine: interleaved requests, a clock, lost calls, history |
| `ProtocolSafety`, `ProtocolRuns` | the safety invariant, and what it means over runs |
| `ProtocolRefinement` | an uninterrupted create or orchestration takes the machine where the whole call says |
| `ProtocolClaims`, `ProtocolExclusivity` | who relies on which hold, and seat exclusivity under three conditions |
| `ProtocolBreaks`, `ProtocolResale`, `ProtocolNecessity` | a run that breaks it for each condition, by a single step; how a seat is sold again; and that each condition is exact |
| `Tickets`, `TicketsService` | lazy ticket creation and door check-in, interleaved |
| `FoodOrders`, `FoodRuns`, `FoodOrdersService`, `WaiterRace` | pre-orders, waiter orders, the kitchen aggregate, the double-tap race |
| `SubmitRace` | submissions of one ticket's pre-order, command by command |
| `Auth`, `AuthService`, `RefreshRace` | refresh-token rotation and invites; rotation command by command |
| `Offers`, `OffersService`, `RedeemRace` | capped redemptions; the same command by command |
| `Png` | the seed-image writer, byte by byte, against RFC 2083 |

Identifiers stand for UUIDs: only their equality matters, and a fresh one is the next unused.
Amounts are integers in minor units. A remote call is a step that may be lost, before or after its
effect. Time, tokens, signatures and the other services' answers are inputs of the steps.

## Seat exclusivity

`ProtocolExclusivity.SeatsAreExclusive` says that no two PENDING or CONFIRMED orders share a
(version, seat). The code gives this only in runs where (H1) an event keeps its seat-map version while
a live order of it has a seat or a call that has read it is in flight, (H2) a hold somebody still relies
on neither lapses nor is released by its buyer, and (H3) a token stands behind at most one item of an
order that is live or still to be released, and is saved again only while it holds its seat.
`ProtocolClaims.Allowed` states the three as conditions on each step. They ask nothing of holds nobody
relies on, of releases with a wrong token, or of saving an event again with the version it has.

`ProtocolBreaks` gives, for each condition, a run that ends with two CONFIRMED orders for one seat and
in which one step only is not allowed. `ProtocolNecessity` shows that the conditions are exact, for
every state of the invariant: letting a hold lapse or releasing it, moving an event to a new version, or
saving an order sells a seat twice in some continuation of otherwise allowed steps precisely when the
condition rules it out. What each equivalence asks of the calls in flight stands in its contract.

The inductive invariant ties three services together: every seat of a live order is held by that
order's own token or sold to that order; a cancelled order whose release is still on its way keeps
its hold, so the unconditional release deletes no other buyer's; a create() in flight keeps what it
has reserved; and sold seats have no hold.

## What the code does not promise

- APPROVED does not imply CONFIRMED. One lost call strands an order (`ProtocolRuns.ApprovedOrdersCanBeStranded`),
  and so does, with no call lost, a cancellation between the approval and the confirmation
  (`CancelledOrdersCanBePaid`). Exactly when an order can still be confirmed is `ConfirmableExactly`, and
  for approved ones `StrandedExactly`; `ApprovedIsConfirmedUnlessItFailed` is what does hold. A redelivered
  notice never helps, because a notice about an approved payment returns early. The comment above
  orchestrateOrderConfirmation counts on PayHere's retry; the code is followed.
- APPROVED is not final on the proof path: `ConfirmedOrdersCanReadRejected`. It is final exactly when
  no unreviewed proof points at the order: `ApprovalIsFinalExactly`.
- A percentage above 100 passes validation: `Pricing.OverdrawnExactly` and `SafePercentages` say when
  the buyer would owe less than the items outside the scope.
- Renewing, releasing and claiming a hold are not atomic. `HoldRaces` gives a run for each, and
  `MatchedSeatsExactly`, `RenewalHitsExactly`, `ReleaseHitsExactly` and `ClaimHitsExactly` say that the
  command hits another buyer's hold exactly when a SET NX has taken the seat since the GET and its hold
  is still live.
- A ticket can be admitted twice, exactly when two doors have read it ISSUED before either saved:
  `Tickets.OverlapsDecide`; `AdmittedTwiceExactly` names the save that does it.
- getForOrder can answer with fewer tickets than the order has items: `Tickets.FailedSaveLosesTheItem`.
  `LostExactly` says exactly when, and `MissingExactly` which items: those whose save failed and whose
  row had not turned up when the call looked again.
- Rotation is not atomic. A refresh token is used twice exactly when two calls read it unrevoked before
  either saved (`RefreshRace.UsedTwiceExactly`), only that lets a chain have two working tokens
  (`ForksComeFromOverlaps`), and any two calls can bring it about (`TwoCallsFork`). After a logout a
  chain stays dead exactly when no refresh of it is in flight (`StaysDeadExactly`).
- The cap on redemptions is checked before the insert. It is passed exactly when a call inserts after the
  others have used it up (`RedeemRace.PassedExactly`), by at most one less than the calls that overlap
  (`OverlapBoundsTheExcess`), and that bound is attained (`TheBoundIsAttained`).
- A submission replaces its ticket's lines exactly when nobody else's have piled up since it cleared them
  (`SubmitRace.ReplacesExactly`); two edits at once leave both sets (`TwoEditsCanMix`).
- A waiter's second tap can be answered with the order before its lines are saved
  (`WaiterRace.SecondTapCanComeBackEmpty`), exactly when the first call has not finished
  (`LinesAreTheWinners`); and if saving the lines fails, every later retry gets the empty order
  (`LostLinesStayLost`).

## Model

| member | source | states |
|---|---|---|
| `Venue.LedgerIsPermanent` | services/venue-service/src/holds/holds.service.ts:46-200 | over any run of calls, sold rows keep their owner, sold seats get no hold, and they read SOLD to everyone |
| `Venue.HoldRoundTrip` | services/venue-service/src/holds/holds.service.ts:46-114 | a new hold shuts out every other token's create, renewal and release, and its own release restores the state before it |
| `Venue.RenewalRestartsTheClock` | services/venue-service/src/holds/holds.service.ts:78-98 | a renewed hold is live exactly until the new deadline, and no other seat is touched |
| `Venue.ClaimOutlivesTraffic` | services/venue-service/src/holds/holds.service.ts:78-98 | a hold stretched for an order refuses every createHold and reads HELD_BY_ME until its own time plus the order TTL, unless its token or a release/sale touches it |
| `Venue.OrderClaimOutlivesTraffic` | services/order-service/src/orders/orders.service.ts:251-309 | the same for all seats of an order reserved at different times, interleaved with other traffic |
| `Holds.HoldsService.CreateHold` | services/venue-service/src/holds/holds.service.ts:46-76 | the in-place call has exactly the effect and answer of the specification, including the conflict errors |
| `Holds.HoldsService.RenewHold` | services/venue-service/src/holds/holds.service.ts:78-98 | as specified: only the owner of a live hold restarts its time to live |
| `Holds.HoldsService.ReleaseHold` | services/venue-service/src/holds/holds.service.ts:100-114 | as specified: only the owner deletes, a missing hold is fine |
| `Holds.HoldsService.ReserveForOrder` | services/venue-service/src/holds/holds.service.ts:161-174 | as specified: a renewal with the order TTL |
| `Holds.HoldsService.ReleaseForOrder` | services/venue-service/src/holds/holds.service.ts:176-178 | as specified: an unconditional delete |
| `Holds.HoldsService.MarkSold` | services/venue-service/src/holds/holds.service.ts:180-200 | as specified: the first call writes the row and deletes the hold, later ones change nothing |
| `Holds.HoldsService.GetAvailability` | services/venue-service/src/holds/holds.service.ts:120-151 | the loop answers exactly the requested seats, each with its status for the requester |
| `HoldCommands.SetsAreSeparated` | services/venue-service/src/holds/holds.service.ts:46-76 | in every interleaving of single commands, two SET NX that took effect on a seat have a DEL or a lapse between them |
| `HoldCommands.FirstSaleWins` | services/venue-service/src/holds/holds.service.ts:180-200 | racing markSold calls leave one row, the first, with its owner for good |
| `HoldCommands.GapTokensNeverClaim` | services/venue-service/src/holds/holds.service.ts:120-151 | a token put on a seat after its sold row is never reported HELD_BY_ME and never claims the seat, so the check-then-set gap is harmless |
| `HoldCommands.UninterruptedCallsAreAtomic` | services/venue-service/src/holds/holds.service.ts:46-200 | a call whose commands run without interruption does what the call-level function says |
| `HoldRaces.MatchedSeatsExactly` | services/venue-service/src/holds/holds.service.ts:78-114 | in every interleaving, what stands on the seat of a caller whose GET matched is another's hold iff a SET NX has taken the seat since and its hold is live, and its own iff a hold stands and none has |
| `HoldRaces.RenewalHitsExactly` | services/venue-service/src/holds/holds.service.ts:78-98 | EXPIRE restarts another buyer's hold iff the seat was retaken since the GET; otherwise its own or nothing |
| `HoldRaces.ReleaseHitsExactly` | services/venue-service/src/holds/holds.service.ts:100-114 | DEL removes another buyer's live hold iff the seat was retaken since the GET |
| `HoldRaces.ClaimHitsExactly` | services/venue-service/src/holds/holds.service.ts:161-174 | an order's claim is granted whatever EXPIRE found; it holds the seat iff a hold still stands and the seat was not retaken |
| `HoldRaces.RenewalCanStretchAnothersHold` | services/venue-service/src/holds/holds.service.ts:78-98 | an interleaving in which a renewal stretches the next buyer's hold, from any contested seat |
| `HoldRaces.ReleaseCanDropAnothersHold` | services/venue-service/src/holds/holds.service.ts:100-114 | an interleaving in which a release removes the next buyer's live hold |
| `HoldRaces.ClaimCanBeHollow` | services/venue-service/src/holds/holds.service.ts:161-174 | an interleaving in which an order is granted a claim on the next buyer's hold |
| `HoldRaces.ContestIsReachable` | services/venue-service/src/holds/holds.service.ts:46-76 | two commands from the start reach a seat contested in the sense of the three runs above |
| `SeatMaps.RunPublishesPartitions` | services/venue-service/src/seat-maps/seat-maps.service.ts:284-344 | over any authoring run: versions of a map are numbered 1, 2, 3..., old snapshots never change, each partitions its seats |
| `SeatMaps.PublishPartitionsSeats` | services/venue-service/src/seat-maps/seat-maps.service.ts:99-125 | a snapshot lists every seat of the map exactly once, under its own table |
| `SeatMaps.LookupsAgreeWithPartition` | services/order-service/src/orders/orders.service.ts:202-213 | on a published snapshot both seat lookups succeed exactly on listed seats and answer with the seat's one place |
| `SeatMaps.SeatIdsAreFindable` | services/venue-service/src/holds/seat-map-versions.controller.ts:42-46 | the seats asked about by the availability endpoint are exactly the findable ones |
| `SeatMapAuthoring.SeatMapsService.DeleteTable` | services/venue-service/src/seat-maps/seat-maps.service.ts:220-231 | the table goes, with exactly the seats that stood at it; every other seat, table, section and version stays |
| `SeatMapAuthoring.SeatMapsService.DeleteSection` | services/venue-service/src/seat-maps/seat-maps.service.ts:164-182 | the section goes, exactly its tables become unsectioned, no table or seat is deleted |
| `SeatMapAuthoring.SeatMapsService.BulkCreateSeats` | services/venue-service/src/seat-maps/seat-maps.service.ts:233-257 | one seat a label, in order, at the table and on its map, with unused ids; nothing else changes |
| `SeatMapAuthoring.SeatMapsService.Publish` | services/venue-service/src/seat-maps/seat-maps.service.ts:284-344 | appends the next version with the frozen snapshot, and flags the map |
| `TableStatus.StatusOfTable` | libs/shared-types/src/venue.ts:117-137 | the early-exit loop: BOOKED iff some seat is SOLD, else HELD iff some seat is held |
| `TableStatus.AggregateTableStatuses` | libs/shared-types/src/venue.ts:117-137 | one such status for every table and no other key |
| `TableStatus.StatusIgnoresOrder` | libs/shared-types/src/venue.ts:117-137 | the status depends on the set of seats only |
| `TableStatus.StatusIsMonotone` | libs/shared-types/src/venue.ts:117-137 | raising seat statuses never lowers the table's |
| `TableStatus.BookedStaysBooked` | services/venue-service/src/holds/holds.service.ts:120-151 | BOOKED iff a seat has a sold row in the version; it stays BOOKED in every later state, for every reader |
| `Pricing.DiscountStaysInScope` | services/order-service/src/orders/orders.service.ts:350-383 | with percentage at most 100 and prices at least 0, the discount stays within the scoped subtotal and the total covers the rest |
| `Pricing.OverdrawnExactly` | services/order-service/src/promo-codes/dto/create-promo-code.dto.ts:24-26 | exactly when a percentage code leaves less than the items outside its scope |
| `Pricing.SafePercentages` | services/order-service/src/promo-codes/dto/create-promo-code.dto.ts:24-26 | a percentage code is safe for every order iff it is at most 100 |
| `Pricing.PricingIgnoresItemOrder` | services/order-service/src/orders/orders.service.ts:350-383 | permuting the items changes neither subtotal nor discount |
| `Pricing.SplittingCostsLittle` | services/order-service/src/orders/orders.service.ts:373-383 | splitting an order into k changes a percentage discount by at most k-1 units, never upward |
| `OrderRuns.RunKeepsOrders` | services/order-service/src/orders/orders.service.ts:228-413 | every saved order adds up, and every saved item has its event's tier, the tier's price, a seat of the version, its label and an allowed section |
| `OrderRuns.SavedSeatsObeySections` | services/order-service/src/orders/orders.service.ts:294-327 | a saved seat's only place in its snapshot has the saved label and a section the tier allows |
| `OrderRuns.LimitRefusesExactlyTheExcess` | services/order-service/src/orders/orders.service.ts:328-339 | an order without seats is refused exactly when some tier's limit would be exceeded by it |
| `OrderRuns.LimitHoldsOverRuns` | services/order-service/src/orders/orders.service.ts:445-454 | non-cancelled items of a limited tier never exceed the limit, over any serial run with mixed tiers |
| `OrderRuns.UsageCountsOrders` | services/order-service/src/promo-codes/promo-codes.service.ts:225-227 | usageCount equals the number of orders carrying the code, cancelled ones included |
| `OrderRuns.CodesIgnoreCase` | services/order-service/src/promo-codes/promo-codes.service.ts:202-219 | however capitalised, a code finds its event's one row, and checkout applies it or stops for its reason |
| `OrderRuns.UsageStaysWithinLimit` | services/order-service/src/promo-codes/promo-codes.service.ts:166-223 | a fixed usage limit is never passed |
| `OrderClaims.CreateClaimsItsSeats` | services/order-service/src/orders/orders.service.ts:251-309 | after create() every ordered seat, unsold and held by its token before, is held by it for the whole order TTL; whatever the outcome no hold changes hands and no other hold is touched |
| `OrderClaims.CancelFreesExactly` | services/order-service/src/orders/orders.service.ts:517-555 | a cancelled order frees exactly its own seats' holds; other orders, holds and sold rows stay |
| `OrderService.OrdersService.Create` | services/order-service/src/orders/orders.service.ts:228-413 | the in-place call, with its loop over items and its calls to the holds service, has exactly the specified effect and answer |
| `OrderService.OrdersService.Cancel` | services/order-service/src/orders/orders.service.ts:517-555 | as specified: only PENDING orders, then their seats are released |
| `OrderService.OrdersService.ConfirmPayment` | services/order-service/src/orders/orders.service.ts:611-634 | as specified: idempotent on CONFIRMED, refused on anything but PENDING |
| `Reports.ReportConserves` | services/reporting-service/src/reports/reports.service.ts:102-128 | over any run: breakdown counts plus items of vanished tiers equal ticketsSold, and breakdown revenue plus theirs exceeds the headline by exactly the discounts |
| `Reports.FullTierListMissesNothing` | services/reporting-service/src/reports/reports.service.ts:102-128 | when every tier still exists there are no vanished items, so the two identities are exact |
| `Reports.RestaurantReport` | services/reporting-service/src/reports/reports.service.ts:154-222 | one entry an event in order, and headline sums equal to the entries' |
| `Payments.NoticesAreIdempotent` | services/payment-service/src/payments/payments.service.ts:316-365 | a notice asks for confirmation exactly when it makes the payment paid, never unpays one, and changes nothing on redelivery |
| `Payments.ProofPays` | services/payment-service/src/payments/payments.service.ts:371-457 | a proof is accepted exactly for an unpaid order of its method; approved, it pays the order, which then takes no other |
| `Payments.ProofsAreReviewedOnce` | services/payment-service/src/payments/payments.service.ts:430-492 | after either verdict both reviews are refused without effect; a verdict touches one proof and one payment |
| `Payments.SellSeatsExactly` | services/payment-service/src/payments/payments.service.ts:172-202 | orchestration adds rows for exactly the delivered seats that had none, in the order's name; with no failure every seated item's seat is sold |
| `PaymentService.PaymentsService.GetOrCreatePayment` | services/payment-service/src/payments/payments.service.ts:236-256 | one payment an order, refused once APPROVED |
| `PaymentService.PaymentsService.HandleWebhook` | services/payment-service/src/payments/payments.service.ts:316-365 | signature, early return, approval before confirmation, rejection codes, as specified |
| `PaymentService.PaymentsService.SubmitProof` | services/payment-service/src/payments/payments.service.ts:371-406 | resets the payment and appends the proof, as specified |
| `PaymentService.PaymentsService.ApproveProof` | services/payment-service/src/payments/payments.service.ts:430-457 | approves an unreviewed proof and its payment, then orchestrates |
| `PaymentService.PaymentsService.RejectProof` | services/payment-service/src/payments/payments.service.ts:459-492 | rejects an unreviewed proof and its payment, whatever the payment's status |
| `PaymentService.PaymentsService.OrchestrateOrderConfirmation` | services/payment-service/src/payments/payments.service.ts:172-202 | confirm, fetch order, fetch event, then mark seat by seat, with the specified effect under any outage |
| `ProtocolSafety.NextKeeps` | services/payment-service/src/payments/payments.service.ts:172-202 | one step of any kind keeps the safety invariant of all services and moves rows only forward |
| `ProtocolRefinement.CreateRefines` | services/order-service/src/orders/orders.service.ts:228-413 | the machine's steps for one uninterrupted create() save the very order and leave the very holds of the whole call |
| `ProtocolRefinement.OrchestrationRefines` | services/payment-service/src/payments/payments.service.ts:172-202 | an uninterrupted orchestration confirms the order and sells exactly the delivered seats; with no lost call every seated item's seat is sold and earlier rows are unchanged |
| `ProtocolRuns.OrderStatusesAreAbsorbing` | services/order-service/src/orders/orders.service.ts:517-532 | only PENDING, CONFIRMED and CANCELLED are reachable, the last two are absorbing, saved orders never change otherwise |
| `ProtocolRuns.SoldRowsTellTheTruth` | services/venue-service/src/holds/holds.service.ts:180-200 | with any interleaving and any lost call, every sold row names a CONFIRMED order containing the seat, keeps its owner and never disappears |
| `ProtocolRuns.ConfirmedOrdersWereApproved` | services/payment-service/src/payments/payments.service.ts:316-365 | every CONFIRMED order has an approval of its own payment earlier in the run |
| `ProtocolRuns.ConfirmedByOrchestrationOnly` | services/order-service/src/orders/orders.service.ts:611-634 | an order becomes CONFIRMED only by an orchestration waiting to confirm it |
| `ProtocolRuns.PayHereApprovalIsFinal` | services/payment-service/src/payments/payments.service.ts:262-283 | a PAYHERE payment stays APPROVED under any redelivery or reordering, since no proof can point at it |
| `ProtocolRuns.ApprovalIsFinalExactly` | services/payment-service/src/payments/payments.service.ts:459-492 | an approval survives every continuation iff no unreviewed proof points at the order |
| `ProtocolRuns.ConfirmedOrdersCanReadRejected` | services/payment-service/src/payments/payments.service.ts:477-479 | a concrete run: a CONFIRMED order whose payment reads REJECTED |
| `ProtocolRuns.ConfirmableExactly` | services/payment-service/src/payments/payments.service.ts:344-352 | some continuation confirms an order iff it is confirmed, or PENDING and, if paid, a confirm call is on its way or an unreviewed proof is left |
| `ProtocolRuns.StrandedExactly` | services/payment-service/src/payments/payments.service.ts:316-365 | an approved order, by either method, is never confirmed iff it is cancelled, or unconfirmed with neither |
| `ProtocolRuns.ApprovedIsConfirmedUnlessItFailed` | services/payment-service/src/payments/payments.service.ts:162-202 | in every run an approved order is CONFIRMED unless a confirm call is on its way or one failed |
| `ProtocolRuns.CancelledOrdersCanBePaid` | services/order-service/src/orders/orders.service.ts:517-532 | a concrete run without any lost call: paid, cancelled, and stranded for good |
| `ProtocolRuns.ApprovedOrdersCanBeStranded` | services/payment-service/src/payments/payments.service.ts:344-352 | a concrete run with one lost call that leaves an order paid and never to be confirmed |
| `ProtocolExclusivity.SeatsAreExclusive` | services/order-service/src/orders/orders.service.ts:282-309 | under the three conditions no two live orders share a (version, seat), and each live seat is held by its own token or sold to its order |
| `ProtocolExclusivity.StepKeepsExclusive` | services/order-service/src/orders/orders.service.ts:517-545 | every allowed step of every service keeps the inductive invariant behind it |
| `ProtocolExclusivity.SoleClaim` | services/venue-service/src/holds/holds.service.ts:176-178 | nobody else relies on the hold behind a claiming item's seat, so a late release or a sale hurts no one |
| `ProtocolNecessity.TimeMayPassExactly` | services/venue-service/src/holds/holds.service.ts:161-174 | while every create() in flight has claimed its seats and is ready to be saved, time may pass exactly as far as no claimed hold lapses: beyond it some allowed continuation sells a seat twice |
| `ProtocolNecessity.ReleasesAreHarmlessExactly` | services/venue-service/src/holds/holds.service.ts:100-114 | under the same condition a buyer's release is harmless exactly when it misses or nobody relies on the hold |
| `ProtocolNecessity.EditsAreHarmlessExactly` | services/order-service/src/orders/orders.service.ts:228-246 | while no call that has read the event is in flight, it may move to a new version exactly when no live order of it has a seat |
| `ProtocolNecessity.SavesAreHarmlessExactly` | services/order-service/src/orders/orders.service.ts:282-413 | with each token drawn for one seat and no other create() in flight, saving an order keeps every allowed continuation exclusive exactly when its tokens are distinct, stand behind no seat that counts, and still hold their seats if saved before |
| `ProtocolBreaks.LapsedHoldsCanSellTwice` | services/order-service/src/orders/orders.service.ts:282-309 | a run in which every step but one lapse is allowed ends with two CONFIRMED orders for one seat |
| `ProtocolBreaks.OneTokenCanSellTwice` | services/order-service/src/orders/orders.service.ts:282-309 | the same with one save of a token already behind a live order |
| `ProtocolBreaks.RevisedMapsCanSellTwice` | services/order-service/src/orders/orders.service.ts:228-246 | the same with one change of the event's version under a pending order |
| `Tickets.LazyCreationIsRaceSafe` | services/checkin-service/src/tickets/tickets.service.ts:109-157 | in every interleaving at most one ticket an item; any two completed answers of an order with as many tickets as items are the same, one an item, in item order, with the same ids and QR tokens |
| `Tickets.CleanRunsLoseNothing` | services/checkin-service/src/tickets/tickets.service.ts:126-156 | while saves fail only on the item's constraint, every completed call answers with one ticket an item |
| `Tickets.LostExactly` | services/checkin-service/src/tickets/tickets.service.ts:147-156 | a completed call answers with fewer tickets than the order has items iff a save of it failed and no row of the item stood when it looked again, and never with more |
| `Tickets.MissingExactly` | services/checkin-service/src/tickets/tickets.service.ts:147-156 | item by item: an item of the order has no ticket in the answer iff that happened at this very item |
| `Tickets.FailedSaveLosesTheItem` | services/checkin-service/src/tickets/tickets.service.ts:147-156 | in any run, a failed save of an item nobody else has made leaves the call short in every continuation, and in some it completes so |
| `Tickets.AdmittedTwiceExactly` | services/checkin-service/src/tickets/tickets.service.ts:223-241 | in every interleaving a ticket is admitted twice iff some door saves its ISSUED reading onto a row checked in since |
| `Tickets.AdmittedOnce` | services/checkin-service/src/tickets/tickets.service.ts:223-241 | no ticket is admitted twice while no door reads a ticket that another door has read ISSUED and not yet saved |
| `Tickets.OverlapAdmitsTwice` | services/checkin-service/src/tickets/tickets.service.ts:223-241 | two doors that have read one ticket ISSUED, once both have saved, in any interleaving with anything else, have admitted it twice |
| `Tickets.OverlapsDecide` | services/checkin-service/src/tickets/tickets.service.ts:223-241 | in every run a ticket is admitted twice iff two doors have read it ISSUED before either saved, and both have saved |
| `TicketService.TicketsService.GetForOrder` | services/checkin-service/src/tickets/tickets.service.ts:109-172 | the loop returns one ticket an item in order, adds rows for exactly the items without one, and changes no old row |
| `TicketService.TicketsService.CheckIn` | services/checkin-service/src/tickets/tickets.service.ts:223-241 | marks exactly the scanned issued ticket, and refuses unknown and used ones |
| `FoodOrders.ResolvesAgainstTheMenu` | services/food-order-service/src/food-orders/food-orders.service.ts:179-216 | resolution succeeds iff every input names an available item; names and prices are the menu's |
| `FoodRuns.SubmitReplaces` | services/food-order-service/src/food-orders/food-orders.service.ts:263-298 | a submission replaces its ticket's lines, moves each total by new minus old, keeps the kitchen status and every other order |
| `FoodRuns.LastSubmissionWins` | services/food-order-service/src/food-orders/food-orders.service.ts:222-307 | after any serial run a ticket's lines are those its last successful submission resolved |
| `FoodRuns.RunKeeps` | services/food-order-service/src/food-orders/entities/food-pre-order.entity.ts:29-30 | at most one pre-order a ticket and one row a request key, and no line without its order |
| `FoodRuns.BulkUpdatesExactly` | services/food-order-service/src/food-orders/food-orders.service.ts:647-662 | succeeds iff every listed row exists and is the caller's to manage, and then sets exactly those rows |
| `FoodRuns.PreOrdersStandAtTheirTable` | services/food-order-service/src/food-orders/food-orders.service.ts:250-261 | a pre-order with a seat carries the one table that lists the seat in the published version |
| `FoodRuns.StatusSurvivesEdits` | services/food-order-service/src/food-orders/food-orders.service.ts:263-272 | only status calls move a kitchen status |
| `FoodRuns.AggregateAgreesWithRecount` | services/food-order-service/src/food-orders/food-orders.service.ts:498-529 | the grouped join over lines equals a recount order by order |
| `FoodRuns.WaiterOrdersAreBooked` | services/food-order-service/src/food-orders/food-orders.service.ts:338-359 | the very operation that appended a waiter order's row found its table with a seat sold in the event's version |
| `FoodOrderService.FoodOrdersService.Submit` | services/food-order-service/src/food-orders/food-orders.service.ts:222-307 | the in-place call has exactly the specified effect and answer |
| `FoodOrderService.FoodOrdersService.CreateWaiterOrder` | services/food-order-service/src/food-orders/food-orders.service.ts:317-413 | as specified, with BOOKED computed by the shared loop from the venue's answer |
| `FoodOrderService.FoodOrdersService.BulkUpdateStatus` | services/food-order-service/src/food-orders/food-orders.service.ts:647-662 | row by row, rows before the first failure stay updated |
| `SubmitRace.LinesArePiled` | services/food-order-service/src/food-orders/food-orders.service.ts:263-298 | in every interleaving a ticket has one pre-order at most, and its lines are what was saved since it was last cleared, in that order |
| `SubmitRace.ReplacesExactly` | services/food-order-service/src/food-orders/food-orders.service.ts:263-298 | a save leaves exactly its own lines iff nobody else's have piled up since its own clear, otherwise theirs and then its own |
| `SubmitRace.FailedSaveLosesTheLines` | services/food-order-service/src/food-orders/food-orders.service.ts:291-298 | a save that fails leaves none of the ticket's lines but what others have saved since the clear |
| `SubmitRace.TwoEditsCanMix` | services/food-order-service/src/food-orders/food-orders.service.ts:263-298 | from every reached state, two edits at once can leave both sets of lines |
| `WaiterRace.KeyedCallsAgree` | services/food-order-service/src/food-orders/food-orders.service.ts:321-331 | one row a key in every interleaving; all completing calls of the key return its id; one call made it |
| `WaiterRace.LinesAreTheWinners` | services/food-order-service/src/food-orders/food-orders.service.ts:364-413 | a row's lines are its maker's once that has finished and none before; a call that reads the row answers with exactly those, complete iff the maker has finished or had none |
| `WaiterRace.AnswersAreTheWinners` | services/food-order-service/src/food-orders/food-orders.service.ts:384-394 | what any completed call has answered: nothing, or the finished maker's lines |
| `WaiterRace.SecondTapCanComeBackEmpty` | services/food-order-service/src/food-orders/food-orders.service.ts:321-330 | a concrete double tap whose second call completes without lines |
| `WaiterRace.LostLinesStayLost` | services/food-order-service/src/food-orders/food-orders.service.ts:321-330 | once saving the lines has failed the order has none in every later state, and every call of the key is answered with it empty |
| `WaiterRace.UnkeyedCallsNeverClash` | services/food-order-service/src/food-orders/entities/food-pre-order.entity.ts:93-95 | calls without a key each make their own row |
| `Auth.TokensRotate` | services/identity-service/src/auth/auth.service.ts:82-115 | each refresh token is accepted at most once, and a rotation chain has at most one unrevoked token |
| `Auth.RevokedNeverRevives` | services/identity-service/src/auth/auth.service.ts:94-104 | a revoked token is refused in every later state |
| `Auth.DeadFamiliesStayDead` | services/identity-service/src/auth/auth.service.ts:117-130 | once a chain's last token is revoked no later call revives the chain |
| `Auth.InactiveAccountsHoldNoTokens` | services/identity-service/src/auth/auth.service.ts:167-211 | an invite is pending exactly while its account is inactive; such an account owns no token, cannot log in, and only its invite activates it |
| `Auth.LogoutEndsTheChain` | services/identity-service/src/auth/auth.service.ts:117-130 | the token is refused from then on and no other token changes; if it was its chain's live token, the chain has none left |
| `Auth.RegistrationOpensTheAccount` | services/identity-service/src/auth/auth.service.ts:47-80 | after registration exactly that password logs in, and the token refreshes exactly within its TTL |
| `Auth.RotationHandsOver` | services/identity-service/src/auth/auth.service.ts:82-115 | a refresh stays with the token's own user, the new token works within its TTL, the old one never again |
| `Auth.InviteRoundTrip` | services/identity-service/src/auth/auth.service.ts:167-211 | an invite is accepted exactly within seven days and once, and then exactly the chosen password logs in |
| `RefreshRace.UsedTwiceExactly` | services/identity-service/src/auth/auth.service.ts:94-114 | in every interleaving of single commands a refresh token is used twice iff two calls have read it unrevoked before either saved, and both have saved |
| `RefreshRace.ForksComeFromOverlaps` | services/identity-service/src/auth/auth.service.ts:94-114 | two working tokens in one chain take two such calls on a token of that chain |
| `RefreshRace.TwoCallsFork` | services/identity-service/src/auth/auth.service.ts:94-114 | from every state, a working token and two calls can make two working tokens of its chain |
| `RefreshRace.StaysDeadExactly` | services/identity-service/src/auth/auth.service.ts:117-130 | a chain without a working token never has one again iff no refresh call that has read a token of it is in flight |
| `AuthServices.AuthService.Refresh` | services/identity-service/src/auth/auth.service.ts:82-115 | the in-place call has exactly the specified effect and answer |
| `AuthServices.AuthService.AcceptInvite` | services/identity-service/src/auth/auth.service.ts:192-211 | as specified, including expiry |
| `AuthServices.AuthService.Logout` | services/identity-service/src/auth/auth.service.ts:117-130 | as specified: revokes by token id once the signature verifies |
| `Offers.RedeemAgreesWithRecompute` | services/offers-service/src/offers/offers.service.ts:276-362 | redeem succeeds iff the offer is bundled and not used up, and answers what offersForTicket recomputes next |
| `Offers.RedeemTouchesNothingElse` | services/offers-service/src/offers/offers.service.ts:313-362 | a redemption changes no other (offer, ticket) pair's count or allowance |
| `Offers.RedemptionsStayWithinCap` | services/offers-service/src/offers/offers.service.ts:124-130 | redemptions per (offer, ticket) never pass a fixed effective cap |
| `Offers.RedemptionsLiveWithTheirOffer` | services/offers-service/src/offers/offers.service.ts:244-254 | an offer starts unredeemed, and deleting it takes all of its redemptions and nobody else's |
| `Offers.LoweredCapRefuses` | services/offers-service/src/offers/offers.service.ts:206-242 | a cap lowered below the count refuses further redemptions and takes none back |
| `RedeemRace.PassedExactly` | services/offers-service/src/offers/offers.service.ts:333-350 | in every interleaving of counts and inserts the cap is passed iff some call inserts although the others have used it up since it counted |
| `RedeemRace.OverlapBoundsTheExcess` | services/offers-service/src/offers/offers.service.ts:333-350 | while at most m calls for the pair overlap, the cap is passed by m - 1 at most, so never without overlap |
| `RedeemRace.TheBoundIsAttained` | services/offers-service/src/offers/offers.service.ts:333-350 | for every positive cap and every m > 0 a run with overlap m that passes it by m - 1 |
| `OfferService.OffersService.Redeem` | services/offers-service/src/offers/offers.service.ts:313-362 | the in-place call has exactly the specified effect and answer |
| `Png.ChunksReadBack` | scripts/lib/png.ts:14-22 | a chunk reader gets back every chunk list the writer writes |
| `Png.ChunksWriteBack` | scripts/lib/png.ts:14-22 | the reader accepts nothing but what the writer produces |
| `Png.FileReadsBack` | scripts/lib/png.ts:24-54 | the file reads back as IHDR, IDAT, IEND; the header carries the dimensions and is valid by section 4.1.1 of RFC 2083 exactly when they are in range |
| `Png.FillRows` | scripts/lib/png.ts:38-51 | the scanline loops stay in bounds, write every byte exactly once, in order, and fill the buffer with the specified rows |
| `Png.PixelsReadBack` | scripts/lib/png.ts:38-54 | after inflation each row starts with filter byte 0 and holds pixel x at 1 + 3x |
| `Png.GradientDarkens` | scripts/lib/png.ts:42-50 | no channel wraps, the top row is the colour, rows only darken and never below 65 percent |
| `Png.WriteUInt32BE` | scripts/lib/png.ts:21-22 | writes exactly the four big-endian bytes, or refuses a value outside the word |
| `Png.MakeSolidPng` | scripts/lib/png.ts:10-55 | the buffer-based writer produces the specified file, or the range error when a length does not fit |

## Left out

- HTTP transport, timeouts, authentication guards and DTO decorators: a remote call is a step that may be lost; validated fields are typed inputs.
- Hashing, JWT signing, UUID generation, deflate and CRC: parameters, or collision-free stand-ins with fresh values.
- Notifications, emails and event streams: sent and forgotten, they never change the modelled tables.
- The web applications, the gateway proxy and the thin create/read/update services (menus, media, ratings, restaurants).
- The seed and reset scripts that call internal endpoints directly: they bypass the protocol.
- Role checks are a set of managed restaurants or a flag, where they decide an answer at all.
- Display fields (names, geometry, table numbers, most labels) and the sort order of listings.
- CodesIgnoreCase: capitals are those of ASCII letters.
- Saving an order's row and its items is one step; a crash between the two inserts is not modelled.
- TimeMayPassExactly: with a create() in flight that has not claimed all its seats the condition is sufficient, not shown necessary, since that request may never be able to save.
- EditsAreHarmlessExactly: the new version has no hold and no sold seat yet, and no call that has read the event is in flight; otherwise the condition is sufficient only.
- SavesAreHarmlessExactly: a token names one seat, as its random draw makes it; one create() is in flight.
- LimitHoldsOverRuns: order creations are taken one at a time, because the count and the insert are separate statements in the service.
- UsageCountsOrders: serial and without failures between the insert and the increment.
- TokensRotate: one call a step; `RefreshRace` interleaves the reads and saves of refreshes and logouts, with the hash, expiry and account checks as one outcome of the read.
- RedemptionsStayWithinCap: serial; `RedeemRace` interleaves counts and inserts under fixed caps.
- LastSubmissionWins: serial; `SubmitRace` interleaves the commands, after the checks and the menu resolution.
- CreateRefines: the machine lets SaveOrder carry any prices, labels, discount and code, so its theorems hold for every pricing; this lemma ties it to the real one.
- OrchestrationRefines: the case without an event version, where nothing is sold, is left to the machine's own step.
- GetForOrder: the class method states the call on its own, with unused random tokens; `Tickets` has the interleavings and the failing saves.
- Create: in the offers service, tiers are a set; a request that repeats a tier fails on the link table's constraint after the offer row is saved, which is not modelled.
- UpdateTable: the section and the number are always given; the optional-field form of the request is not modelled.
- GradientDarkens: shades are computed over the reals, so a floating-point result that falls on the other side of a half is not captured.
- MakeSolidPng: dimensions are natural numbers; fractional or negative arguments are not modelled, nor the runtime's buffer size limit.
- WaiterRace: a call's checks and its menu resolution are one step with any outcome; their content is in `FoodOrders`.
- The promo-code preview endpoint, order listing, platform totals and ticket lookup: reads that add only easy members.
