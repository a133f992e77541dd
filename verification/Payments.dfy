/** The payment service's own tables: one payment per order, and the proofs that point at it. */
module Payments {
  import opened Common
  import Orders
  import Venue
  import Pricing

  datatype PaymentStatus = AWAITING | APPROVED | REJECTED | REFUNDED
  datatype Payment = Payment(paymentMethod: Orders.PaymentMethod, status: PaymentStatus)
  datatype Proof = Proof(orderId: Id, status: PaymentStatus)

  /** A payment is named by its order (order_id is unique); a proof's id is its position. */
  datatype Store = Store(payments: map<Id, Payment>, proofs: seq<Proof>)

  const EMPTY := Store(map[], [])

  datatype PayError = AlreadyPaid | WrongMethod | InvalidSignature | ProofNotFound | AlreadyReviewed | PaymentNotFound | OrderNotPayable | Upstream

  function GetOrCreate(store: Store, orderId: Id, paymentMethod: Orders.PaymentMethod): (Store, Result<(), PayError>) {
    if orderId in store.payments then
      if store.payments[orderId].status == APPROVED then (store, Err(AlreadyPaid)) else (store, Ok(()))
    else (store.(payments := store.payments[orderId := Payment(paymentMethod, AWAITING)]), Ok(()))
  }

  /** initiate(), after the order has been fetched. */
  function Initiate(store: Store, orderId: Id, paymentMethod: Orders.PaymentMethod): (Store, Result<(), PayError>) {
    if paymentMethod != Orders.PAYHERE then (store, Err(WrongMethod)) else GetOrCreate(store, orderId, paymentMethod)
  }

  /** submitProof(), after the order has been fetched: a fresh proof resets the payment. */
  function SubmitProof(store: Store, orderId: Id, paymentMethod: Orders.PaymentMethod): (Store, Result<Id, PayError>) {
    if paymentMethod != Orders.PAYMENT_PROOF then (store, Err(WrongMethod))
    else
      var (created, reply) := GetOrCreate(store, orderId, paymentMethod);
      if reply.Err? then (store, Err(reply.error))
      else
        var payment := created.payments[orderId].(status := AWAITING);
        (Store(created.payments[orderId := payment], created.proofs + [Proof(orderId, AWAITING)]), Ok(|created.proofs|))
  }

  /** handleWebhook(): Ok(true) means the order must now be confirmed. */
  function Webhook(store: Store, orderId: Id, signed: bool, statusCode: string): (Store, Result<bool, PayError>) {
    if !signed then (store, Err(InvalidSignature))
    else if orderId !in store.payments || store.payments[orderId].status == APPROVED then (store, Ok(false))
    else
      var payment := store.payments[orderId];
      if statusCode == "2" then (store.(payments := store.payments[orderId := payment.(status := APPROVED)]), Ok(true))
      else if statusCode in {"-1", "-2", "-3"}
      then (store.(payments := store.payments[orderId := payment.(status := REJECTED)]), Ok(false))
      else (store, Ok(false))
  }

  function SetProof(store: Store, id: Id, status: PaymentStatus): Store
    requires id < |store.proofs|
  {
    store.(proofs := store.proofs[id := store.proofs[id].(status := status)])
  }

  /** approveProof(): Ok(orderId) means that order must now be confirmed. */
  function ApproveProof(store: Store, id: Id): (Store, Result<Id, PayError>) {
    if id >= |store.proofs| then (store, Err(ProofNotFound))
    else if store.proofs[id].status != AWAITING then (store, Err(AlreadyReviewed))
    else
      var reviewed, orderId := SetProof(store, id, APPROVED), store.proofs[id].orderId;
      if orderId !in store.payments then (reviewed, Err(PaymentNotFound))
      else (reviewed.(payments := store.payments[orderId := store.payments[orderId].(status := APPROVED)]), Ok(orderId))
  }

  function RejectProof(store: Store, id: Id): (Store, Result<(), PayError>) {
    if id >= |store.proofs| then (store, Err(ProofNotFound))
    else if store.proofs[id].status != AWAITING then (store, Err(AlreadyReviewed))
    else
      var reviewed, orderId := SetProof(store, id, REJECTED), store.proofs[id].orderId;
      if orderId !in store.payments then (reviewed, Ok(()))
      else (reviewed.(payments := store.payments[orderId := store.payments[orderId].(status := REJECTED)]), Ok(()))
  }

  // ----- What the calls mean for a payment -----

  predicate Paid(store: Store, orderId: Id) {
    orderId in store.payments && store.payments[orderId].status == APPROVED
  }

  /** Every payment but the order's is untouched, and none disappears or changes its method. */
  ghost predicate OnlyPayment(store: Store, after: Store, orderId: Id) {
    && (forall o :: o != orderId ==> (o in after.payments <==> o in store.payments))
    && (forall o :: o != orderId && o in store.payments ==> after.payments[o] == store.payments[o])
    && (orderId in store.payments ==> orderId in after.payments && after.payments[orderId].paymentMethod == store.payments[orderId].paymentMethod)
  }

  /** A notice asks for a confirmation exactly when it makes the payment paid; it never unpays one; and a
      second delivery of it, whatever it did, changes nothing and asks for nothing. */
  lemma NoticesAreIdempotent(store: Store, orderId: Id, signed: bool, statusCode: string)
    ensures var (after, reply) := Webhook(store, orderId, signed, statusCode);
      && OnlyPayment(store, after, orderId) && after.proofs == store.proofs
      && (reply == Ok(true) <==> Paid(after, orderId) && !Paid(store, orderId))
      && (Paid(store, orderId) ==> Paid(after, orderId))
      && (Webhook(after, orderId, signed, statusCode) == (after, if signed then Ok(false) else Err(InvalidSignature)))
  {
    var after := Webhook(store, orderId, signed, statusCode).0;
    if orderId in after.payments { assert after.payments[orderId := after.payments[orderId]] == after.payments; }
  }

  /** A proof's round trip: it can be submitted exactly for an unpaid order of its method, resets the
      payment, and once approved pays the order, which then takes no further proof. */
  lemma ProofPays(store: Store, orderId: Id, how: Orders.PaymentMethod)
    ensures SubmitProof(store, orderId, how).1.Ok? <==> how == Orders.PAYMENT_PROOF && !Paid(store, orderId)
    ensures SubmitProof(store, orderId, how).1.Ok? ==>
      var (submitted, proof) := SubmitProof(store, orderId, how);
      var (approved, reply) := ApproveProof(submitted, proof.value);
      && OnlyPayment(store, submitted, orderId) && orderId in submitted.payments && submitted.payments[orderId].status == AWAITING
      && store.proofs < submitted.proofs && submitted.proofs[proof.value] == Proof(orderId, AWAITING)
      && reply == Ok(orderId) && Paid(approved, orderId)
      && SubmitProof(approved, orderId, how) == (approved, Err(AlreadyPaid))
      && GetOrCreate(approved, orderId, how) == (approved, Err(AlreadyPaid))
  {
  }

  /** A proof is reviewed once: after either verdict both reviews are refused without effect, and the
      verdict has touched nothing but the proof's status and its order's payment. */
  lemma ProofsAreReviewedOnce(store: Store, id: Id, approve: bool)
    requires id < |store.proofs| && store.proofs[id].status == AWAITING
    ensures var after := if approve then ApproveProof(store, id).0 else RejectProof(store, id).0;
      && OnlyPayment(store, after, store.proofs[id].orderId)
      && after.proofs == store.proofs[id := Proof(store.proofs[id].orderId, if approve then APPROVED else REJECTED)]
      && (store.proofs[id].orderId in store.payments ==> (Paid(after, store.proofs[id].orderId) <==> approve))
      && ApproveProof(after, id) == (after, Err(AlreadyReviewed)) && RejectProof(after, id) == (after, Err(AlreadyReviewed))
  {
  }

  // ----- Marking an order's seats sold, seat by seat, best effort -----

  function SellSeats(venue: Venue.VenueState, versionId: Id, orderId: Id, items: seq<Pricing.OrderItem>, lost: set<nat>): Venue.VenueState {
    if items == [] then venue
    else
      var last := |items| - 1;
      var before := SellSeats(venue, versionId, orderId, items[..last], lost);
      if items[last].seatId.Some? && last !in lost
      then Venue.MarkSold(before, Venue.SeatKey(versionId, items[last].seatId.value), Some(orderId))
      else before
  }

  /** The remote calls of one orchestration that fail. */
  datatype Outage = Outage(confirm: bool, fetchOrder: bool, fetchEvent: bool, seats: set<nat>)

  /** orchestrateOrderConfirmation(): false is the failure that makes PayHere retry. */
  function Orchestrate(up: Orders.Upstream, orders: seq<Orders.Order>, venue: Venue.VenueState, orderId: Id, outage: Outage)
    : (seq<Orders.Order>, Venue.VenueState, bool)
  {
    if outage.confirm then (orders, venue, false)
    else
      var (confirmed, reply) := Orders.Confirm(orders, orderId);
      if reply.Err? || outage.fetchOrder then (confirmed, venue, false)
      else
        var order := confirmed[orderId];
        if outage.fetchEvent || order.eventId !in up.events || up.events[order.eventId].seatMapVersionId.None?
        then (confirmed, venue, true)
        else (confirmed, SellSeats(venue, up.events[order.eventId].seatMapVersionId.value, orderId, order.items, outage.seats), true)
  }

  /** The seat is one of the order's, and its call got through. */
  ghost predicate Sells(versionId: Id, items: seq<Pricing.OrderItem>, lost: set<nat>, key: Venue.SeatKey) {
    exists i: nat :: i < |items| && i !in lost && items[i].seatId.Some? && key == Venue.SeatKey(versionId, items[i].seatId.value)
  }

  /** Orchestration adds a row for exactly the seats whose calls got through and that had none,
      all in this order's name; every earlier row keeps its owner. With no lost call, every
      seated item's seat ends up sold. */
  lemma {:induction false} SellSeatsExactly(venue: Venue.VenueState, versionId: Id, orderId: Id, items: seq<Pricing.OrderItem>, lost: set<nat>)
    ensures var after := SellSeats(venue, versionId, orderId, items, lost);
      && (forall key :: key in after.sold <==> key in venue.sold || Sells(versionId, items, lost, key))
      && (forall key :: key in venue.sold ==> after.sold[key] == venue.sold[key])
      && (forall key :: key in after.sold && key !in venue.sold ==> after.sold[key] == Some(orderId))
    ensures lost == {} ==> forall i :: 0 <= i < |items| && items[i].seatId.Some? ==>
      Venue.SeatKey(versionId, items[i].seatId.value) in SellSeats(venue, versionId, orderId, items, lost).sold
    decreases |items|
  {
    if items != [] {
      var last := |items| - 1;
      var most := items[..last];
      SellSeatsExactly(venue, versionId, orderId, most, lost);
      forall key
        ensures Sells(versionId, items, lost, key) <==>
          (Sells(versionId, most, lost, key)
           || (last !in lost && items[last].seatId.Some? && key == Venue.SeatKey(versionId, items[last].seatId.value)))
      {
        if Sells(versionId, most, lost, key) {
          var i: nat :| i < |most| && i !in lost && most[i].seatId.Some? && key == Venue.SeatKey(versionId, most[i].seatId.value);
          assert items[i] == most[i];
        }
        if i: nat :| i < |items| && i !in lost && items[i].seatId.Some? && key == Venue.SeatKey(versionId, items[i].seatId.value) && i < last {
          assert most[i] == items[i];
        }
      }
    }
    if lost == {} {
      forall i | 0 <= i < |items| && items[i].seatId.Some?
        ensures Sells(versionId, items, lost, Venue.SeatKey(versionId, items[i].seatId.value)) {}
    }
  }
}
