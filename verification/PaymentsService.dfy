/** PaymentsService over its payments and payment_proofs tables, calling the order service and,
    seat by seat, the venue service. Which remote calls are lost is an input. */
module PaymentService {
  import opened Common
  import opened Payments
  import Orders
  import OrderService
  import Holds
  import Venue

  class PaymentsService {
    var payments: map<Id, Payment>
    var proofs: seq<Proof>
    const orders: OrderService.OrdersService

    ghost function Contents(): Store
      reads this
    {
      Store(payments, proofs)
    }

    constructor (orders: OrderService.OrdersService)
      ensures this.orders == orders && Contents() == EMPTY
    {
      this.orders := orders;
      payments, proofs := map[], [];
    }

    method GetOrCreatePayment(orderId: Id, paymentMethod: Orders.PaymentMethod) returns (r: Result<(), PayError>)
      modifies this
      ensures (Contents(), r) == GetOrCreate(old(Contents()), orderId, paymentMethod)
    {
      if orderId in payments {
        if payments[orderId].status == APPROVED { return Err(AlreadyPaid); }
        return Ok(());
      }
      payments := payments[orderId := Payment(paymentMethod, AWAITING)];
      return Ok(());
    }

    method Initiate(orderId: Id) returns (r: Result<(), PayError>)
      modifies this
      ensures orderId >= |orders.orders| || orders.orders[orderId].status != Orders.PENDING ==>
        r.Err? && Contents() == old(Contents())
      ensures orderId < |orders.orders| && orders.orders[orderId].status == Orders.PENDING ==>
        (Contents(), r) == Payments.Initiate(old(Contents()), orderId, orders.orders[orderId].paymentMethod)
    {
      if orderId >= |orders.orders| { return Err(Upstream); }
      var order := orders.orders[orderId];
      if order.status != Orders.PENDING { return Err(OrderNotPayable); }
      if order.paymentMethod != Orders.PAYHERE { return Err(WrongMethod); }
      r := GetOrCreatePayment(orderId, order.paymentMethod);
    }

    method SubmitProof(orderId: Id) returns (r: Result<Id, PayError>)
      modifies this
      ensures orderId >= |orders.orders| || orders.orders[orderId].status != Orders.PENDING ==>
        r.Err? && Contents() == old(Contents())
      ensures orderId < |orders.orders| && orders.orders[orderId].status == Orders.PENDING ==>
        (Contents(), r) == Payments.SubmitProof(old(Contents()), orderId, orders.orders[orderId].paymentMethod)
    {
      if orderId >= |orders.orders| { return Err(Upstream); }
      var order := orders.orders[orderId];
      if order.status != Orders.PENDING { return Err(OrderNotPayable); }
      if order.paymentMethod != Orders.PAYMENT_PROOF { return Err(WrongMethod); }
      var created := GetOrCreatePayment(orderId, order.paymentMethod);
      if created.Err? { return Err(created.error); }
      payments := payments[orderId := payments[orderId].(status := AWAITING)];
      proofs := proofs + [Proof(orderId, AWAITING)];
      return Ok(|proofs| - 1);
    }

    /** Confirms the order, which must succeed, then marks each seat sold, best effort per seat. */
    method OrchestrateOrderConfirmation(up: Orders.Upstream, orderId: Id, outage: Outage) returns (confirmed: bool)
      modifies orders, orders.holds
      ensures (orders.orders, orders.holds.Contents(), confirmed)
           == Orchestrate(up, old(orders.orders), old(orders.holds.Contents()), orderId, outage)
      ensures orders.promos == old(orders.promos)
    {
      if outage.confirm { return false; }
      var reply := orders.ConfirmPayment(orderId);
      if reply.Err? || outage.fetchOrder { return false; }
      var order := orders.orders[orderId];
      if outage.fetchEvent || order.eventId !in up.events || up.events[order.eventId].seatMapVersionId.None? { return true; }
      var versionId := up.events[order.eventId].seatMapVersionId.value;
      ghost var stored, promos := orders.orders, orders.promos;
      for i := 0 to |order.items|
        invariant orders.orders == stored && orders.promos == promos
        invariant orders.holds.Contents() == SellSeats(old(orders.holds.Contents()), versionId, orderId, order.items[..i], outage.seats)
      {
        assert order.items[..i + 1][..i] == order.items[..i];
        if order.items[i].seatId.Some? && i !in outage.seats {
          orders.holds.MarkSold(versionId, order.items[i].seatId.value, Some(orderId));
        }
      }
      assert order.items[..|order.items|] == order.items;
      return true;
    }

    method HandleWebhook(up: Orders.Upstream, orderId: Id, signed: bool, statusCode: string, outage: Outage)
      returns (r: Result<bool, PayError>)
      modifies this, orders, orders.holds
      ensures var (store, local) := Webhook(old(Contents()), orderId, signed, statusCode);
        && Contents() == store
        && if local == Ok(true) then
             (orders.orders, orders.holds.Contents(), r.Ok?)
             == Orchestrate(up, old(orders.orders), old(orders.holds.Contents()), orderId, outage)
           else r == local && orders.orders == old(orders.orders) && orders.holds.Contents() == old(orders.holds.Contents())
    {
      if !signed { return Err(InvalidSignature); }
      if orderId !in payments { return Ok(false); }
      var payment := payments[orderId];
      // PayHere may redeliver the same notice.
      if payment.status == APPROVED { return Ok(false); }
      if statusCode == "2" {
        payments := payments[orderId := payment.(status := APPROVED)];
        var confirmed := OrchestrateOrderConfirmation(up, orderId, outage);
        if !confirmed { return Err(Upstream); }
        return Ok(true);
      } else if statusCode in {"-1", "-2", "-3"} {
        payments := payments[orderId := payment.(status := REJECTED)];
      }
      return Ok(false);
    }

    method ApproveProof(up: Orders.Upstream, id: Id, outage: Outage) returns (r: Result<Id, PayError>)
      modifies this, orders, orders.holds
      ensures var (store, local) := Payments.ApproveProof(old(Contents()), id);
        && Contents() == store
        && if local.Ok? then
             (orders.orders, orders.holds.Contents(), r.Ok?)
             == Orchestrate(up, old(orders.orders), old(orders.holds.Contents()), local.value, outage)
           else r == local && orders.orders == old(orders.orders) && orders.holds.Contents() == old(orders.holds.Contents())
    {
      if id >= |proofs| { return Err(ProofNotFound); }
      if proofs[id].status != AWAITING { return Err(AlreadyReviewed); }
      proofs := proofs[id := proofs[id].(status := APPROVED)];
      var orderId := proofs[id].orderId;
      if orderId !in payments { return Err(PaymentNotFound); }
      payments := payments[orderId := payments[orderId].(status := APPROVED)];
      var confirmed := OrchestrateOrderConfirmation(up, orderId, outage);
      if !confirmed { return Err(Upstream); }
      return Ok(orderId);
    }

    method RejectProof(id: Id) returns (r: Result<(), PayError>)
      modifies this
      ensures (Contents(), r) == Payments.RejectProof(old(Contents()), id)
    {
      if id >= |proofs| { return Err(ProofNotFound); }
      if proofs[id].status != AWAITING { return Err(AlreadyReviewed); }
      proofs := proofs[id := proofs[id].(status := REJECTED)];
      var orderId := proofs[id].orderId;
      if orderId in payments {
        payments := payments[orderId := payments[orderId].(status := REJECTED)];
      }
      return Ok(());
    }
  }
}
