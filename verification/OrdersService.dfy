/** OrdersService: create, cancel and confirmPayment over the orders and promo_codes tables,
    calling the venue's HoldsService for its seats. */
module OrderService {
  import opened Common
  import opened Pricing
  import opened Orders
  import SeatMaps
  import Venue
  import Holds

  class OrdersService {
    var orders: seq<Order>
    var promos: seq<Promo>
    const holds: Holds.HoldsService

    ghost function Contents(): Shop
      reads this, holds
    {
      Shop(orders, promos, holds.Contents())
    }

    constructor (holds: Holds.HoldsService)
      ensures this.holds == holds && orders == [] && promos == []
    {
      this.holds := holds;
      orders, promos := [], [];
    }

    method ClaimSeat(up: Upstream, versionId: Id, seatId: Id, token: Venue.Token, now: int)
      returns (r: Result<Option<SeatMaps.SeatInfo>, OrderError>)
      modifies holds
      ensures (holds.Contents(), r) == Orders.ClaimSeat(up, old(holds.Contents()), versionId, seatId, token, now)
    {
      if versionId >= |up.versions| {
        return Err(VenueUnavailable);
      }
      var tables := up.versions[versionId].snapshot.tables;
      var availability := holds.GetAvailability(versionId, SeatMaps.SeatIds(tables), Some(token), now);
      if seatId !in availability || availability[seatId] != Venue.HELD_BY_ME {
        return Err(SeatLost);
      }
      var reply := holds.ReserveForOrder(versionId, seatId, token, now);
      if reply.Err? {
        return Err(SeatLost);
      }
      return Ok(SeatMaps.FindSeatInSnapshot(tables, seatId));
    }

    lemma Stops(up: Upstream, venue: Venue.VenueState, eventId: Id, versionId: Option<Id>, inputs: seq<ItemInput>, i: nat, now: int)
      requires i <= |inputs| && PrepareAll(up, orders, venue, eventId, versionId, inputs[..i], now).items.Err?
      ensures PrepareAll(up, orders, venue, eventId, versionId, inputs, now)
           == PrepareAll(up, orders, venue, eventId, versionId, inputs[..i], now)
      decreases |inputs|
    {
      if i < |inputs| {
        assert inputs[..|inputs| - 1][..i] == inputs[..i];
        Stops(up, venue, eventId, versionId, inputs[..|inputs| - 1], i, now);
      } else {
        assert inputs[..i] == inputs;
      }
    }

    method PrepareItem(up: Upstream, eventId: Id, versionId: Option<Id>, input: ItemInput, pending: map<Id, nat>, now: int, ghost done: seq<OrderItem>)
      returns (r: Result<OrderItem, OrderError>, counted: map<Id, nat>)
      modifies holds
      ensures var after := Orders.PrepareItem(up, orders, Prep(old(holds.Contents()), pending, Ok(done)), eventId, versionId, input, now);
        && holds.Contents() == after.venue && counted == after.pending
        && after.items == (if r.Ok? then Ok(done + [r.value]) else Err(r.error))
    {
      counted := pending;
      if input.tierId !in up.tiers { r := Err(TierNotFound); return; }
      var tier := up.tiers[input.tierId];
      if tier.eventId != eventId { r := Err(WrongEvent); return; }
      if tier.saleStart.Some? && tier.saleStart.value > now { r := Err(SalesClosed); return; }
      if tier.saleEnd.Some? && tier.saleEnd.value < now { r := Err(SalesClosed); return; }
      var seatLabel: Option<string> := None;
      if input.seatId.None? && versionId.Some? { r := Err(SeatRequired); return; }
      if input.seatId.Some? {
        if input.holderToken.None? { r := Err(TokenRequired); return; }
        if versionId.None? { r := Err(NoSeatMap); return; }
        var info := ClaimSeat(up, versionId.value, input.seatId.value, input.holderToken.value, now);
        if info.Err? { r := Err(info.error); return; }
        if info.value.Some? { seatLabel := Some(info.value.value.seatLabel); }
        if |tier.allowedSections| > 0 && info.value.Some?
           && (info.value.value.sectionId.None? || info.value.value.sectionId.value !in tier.allowedSections) {
          r := Err(SectionNotAllowed); return;
        }
      } else if tier.quantityLimit.Some? {
        var alreadySold := CountSold(orders, input.tierId);
        var pendingInThisOrder := Pending(pending, input.tierId);
        if alreadySold + pendingInThisOrder + 1 > tier.quantityLimit.value { r := Err(SoldOut(input.tierId)); return; }
        counted := pending[input.tierId := pendingInThisOrder + 1];
      }
      r := Ok(OrderItem(input.tierId, input.seatId, seatLabel, tier.price));
    }

    method Create(up: Upstream, buyerId: Id, request: OrderRequest, now: int) returns (r: Result<Id, OrderError>)
      modifies this, holds
      ensures (Contents(), r) == Orders.Create(up, old(Contents()), buyerId, request, now)
    {
      hide Discount, Sum, PromoToApply, Orders.PrepareItem;
      if request.eventId !in up.events { return Err(EventNotFound); }
      var event := up.events[request.eventId];
      if event.status != PUBLISHED { return Err(NotOpen); }
      var versionId := event.seatMapVersionId;

      ghost var venue := holds.Contents();
      var pendingCountByTier: map<Id, nat> := map[];
      var preparedItems: seq<OrderItem> := [];
      for i := 0 to |request.items|
        invariant orders == old(orders) && promos == old(promos)
        invariant PrepareAll(up, orders, venue, request.eventId, versionId, request.items[..i], now)
               == Prep(holds.Contents(), pendingCountByTier, Ok(preparedItems))
      {
        assert request.items[..i + 1][..i] == request.items[..i];
        var item, counted := PrepareItem(up, request.eventId, versionId, request.items[i], pendingCountByTier, now, preparedItems);
        if item.Err? {
          Stops(up, venue, request.eventId, versionId, request.items, i + 1, now);
          return Err(item.error);
        }
        pendingCountByTier := counted;
        preparedItems := preparedItems + [item.value];
      }
      assert request.items[..|request.items|] == request.items;

      var subtotal := Sum(preparedItems);
      var discount := 0;
      var promo := PromoToApply(promos, request, now);
      if promo.Err? { return Err(promo.error); }
      if promo.value.Some? {
        discount := Discount(preparedItems, promos[promo.value.value]);
      }
      var id := |orders|;
      orders := orders + [Order(buyerId, request.eventId, PENDING, subtotal, discount, subtotal - discount, promo.value, request.paymentMethod, preparedItems)];
      if promo.value.Some? {
        var row := promos[promo.value.value];
        promos := promos[promo.value.value := row.(usageCount := row.usageCount + 1)];
      }
      return Ok(id);
    }

    method Cancel(up: Upstream, id: Id, caller: Id, isAdmin: bool) returns (r: Result<(), OrderError>)
      modifies this, holds
      ensures (Contents(), r) == Orders.Cancel(up, old(Contents()), id, caller, isAdmin)
    {
      if id >= |orders| { return Err(OrderNotFound); }
      var order := orders[id];
      if !isAdmin && order.buyerId != caller { return Err(Forbidden); }
      if order.status != PENDING { return Err(NotPending); }
      orders := orders[id := order.(status := CANCELLED)];
      if order.eventId in up.events && up.events[order.eventId].seatMapVersionId.Some? {
        var versionId := up.events[order.eventId].seatMapVersionId.value;
        for i := 0 to |order.items|
          invariant orders == old(orders)[id := order.(status := CANCELLED)] && promos == old(promos)
          invariant holds.Contents() == FreeSeats(old(holds.Contents()), versionId, order.items[..i])
        {
          assert order.items[..i + 1][..i] == order.items[..i];
          if order.items[i].seatId.Some? {
            holds.ReleaseForOrder(versionId, order.items[i].seatId.value);
          }
        }
        assert order.items[..|order.items|] == order.items;
      }
      return Ok(());
    }

    method ConfirmPayment(id: Id) returns (r: Result<(), OrderError>)
      modifies this
      ensures (orders, r) == Confirm(old(orders), id) && promos == old(promos)
    {
      if id >= |orders| { return Err(OrderNotFound); }
      if orders[id].status == CONFIRMED { return Ok(()); }
      if orders[id].status != PENDING { return Err(CannotConfirm); }
      orders := orders[id := orders[id].(status := CONFIRMED)];
      return Ok(());
    }
  }
}
