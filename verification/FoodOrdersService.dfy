/** FoodOrdersService: rows and lines changed in place, tied to the functions of FoodOrders. */
module FoodOrderService {
  import opened Common
  import opened FoodOrders
  import SeatMaps
  import TableStatus
  import Venue

  class FoodOrdersService {
    var orders: seq<FoodOrder>
    var lines: seq<Line>

    ghost function Contents(): Store
      reads this
    {
      Store(orders, lines)
    }

    constructor ()
      ensures Contents() == EMPTY
    {
      orders, lines := [], [];
    }

    method ResolveMenuItems(up: Upstream, restaurantId: Id, inputs: seq<Input>) returns (r: Result<seq<Dish>, FoodError>)
      ensures r == ResolveFrom(up, restaurantId, inputs)
    {
      if restaurantId !in up.menus { return Err(MenuUnavailable); }
      var menu := up.menus[restaurantId];
      var dishes: seq<Dish> := [];
      for i := 0 to |inputs|
        invariant Resolve(menu, inputs[..i]) == Ok(dishes)
      {
        assert inputs[..i + 1][..i] == inputs[..i];
        var item := Lookup(menu, inputs[i].menuItemId);
        if item.None? {
          Stops(menu, inputs, i + 1);
          return Err(NotOnMenu(inputs[i].menuItemId));
        }
        if !item.value.isAvailable {
          Stops(menu, inputs, i + 1);
          return Err(NotAvailable(item.value.name));
        }
        dishes := dishes + [Dish(item.value.id, item.value.name, inputs[i].quantity, inputs[i].notes, item.value.price)];
      }
      assert inputs[..|inputs|] == inputs;
      return Ok(dishes);
    }

    static lemma {:induction false} Stops(menu: seq<MenuItem>, inputs: seq<Input>, i: nat)
      requires i <= |inputs| && Resolve(menu, inputs[..i]).Err?
      ensures Resolve(menu, inputs) == Resolve(menu, inputs[..i])
      decreases |inputs|
    {
      if i < |inputs| {
        assert inputs[..|inputs| - 1][..i] == inputs[..i];
        Stops(menu, inputs[..|inputs| - 1], i);
      } else {
        assert inputs[..i] == inputs;
      }
    }

    method Submit(up: Upstream, orderId: Id, ticketId: Id, inputs: seq<Input>) returns (r: Result<Id, FoodError>)
      modifies this
      ensures (Contents(), r) == FoodOrders.Submit(old(Contents()), up, orderId, ticketId, inputs)
    {
      if orderId !in up.orders { return Err(OrderNotFound); }
      var order := up.orders[orderId];
      if order.called { return Err(OrderCalledOff); }
      var ticket := FindTicket(order.tickets, ticketId);
      if ticket.None? { return Err(TicketNotFound); }
      if order.eventId !in up.events { return Err(EventNotFound); }
      var event := up.events[order.eventId];
      if up.now >= event.startsAt - EDIT_CUTOFF_MS { return Err(EditingClosed); }
      var dishes := ResolveMenuItems(up, event.restaurantId, inputs);
      if dishes.Err? { return Err(dishes.error); }

      var tableId: Option<Id> := None;
      if ticket.value.seatId.Some? && event.versionId.Some? && event.versionId.value in up.snapshots {
        var table := SeatMaps.FindTableForSeat(up.snapshots[event.versionId.value].tables, ticket.value.seatId.value);
        tableId := if table.Some? then Some(table.value.id) else None;
      }

      var found := FindByTicket(orders, ticketId);
      var id: Id;
      if found.Some? {
        id := found.value;
        lines := Without(lines, id);
        var row := orders[id];
        row := row.(seatId := ticket.value.seatId);
        row := row.(tableId := tableId);
        orders := orders[id := row];
      } else {
        id := |orders|;
        orders := orders + [FoodOrder(Some(ticketId), order.eventId, event.restaurantId, Some(order.buyerId),
                                      ticket.value.seatId, tableId, None, None, PRE_ORDER, RECEIVED)];
      }
      lines := lines + AsLines(id, dishes.value);
      return Ok(id);
    }

    /** `availability` is the venue's answer for the event's version, read without a token. */
    method CreateWaiterOrder(up: Upstream, availability: map<Id, Venue.SeatStatus>, call: WaiterCall) returns (r: Result<Id, FoodError>)
      requires forall v :: v in up.snapshots ==> SeatMaps.Partition(up.snapshots[v])
      requires call.eventId in up.events && up.events[call.eventId].versionId.Some? && up.venue.Some?
               && up.events[call.eventId].versionId.value in up.snapshots ==>
        TableStatus.Answers(availability, up.venue.value, up.events[call.eventId].versionId.value,
                            SeatMaps.SeatIds(up.snapshots[up.events[call.eventId].versionId.value].tables), None, up.now)
      modifies this
      ensures (Contents(), r) == FoodOrders.CreateWaiterOrder(old(Contents()), up, call)
    {
      if call.key.Some? {
        var existing := FindByKey(orders, call.key.value);
        if existing.Some? { return Ok(existing.value); }
      }
      if call.eventId !in up.events { return Err(EventNotFound); }
      var event := up.events[call.eventId];
      if event.restaurantId !in call.manages { return Err(Forbidden); }
      if event.versionId.None? { return Err(NoTableMap); }
      var versionId := event.versionId.value;
      if versionId !in up.snapshots { return Err(TableNotFound); }
      var tables := up.snapshots[versionId].tables;
      var t := FindTable(tables, call.tableId);
      if t.None? { return Err(TableNotFound); }
      if up.venue.None? { return Err(VenueUnavailable); }
      var statuses := TableStatus.AggregateTableStatuses(tables, availability);
      BookedMeansSold(up.venue.value, versionId, tables, t.value, availability, up.now, statuses[call.tableId]);
      if statuses[call.tableId] != TableStatus.BOOKED_TABLE { return Err(NotBooked); }
      var dishes := ResolveMenuItems(up, event.restaurantId, call.inputs);
      if dishes.Err? { return Err(dishes.error); }
      var id := |orders|;
      orders := orders + [FoodOrder(None, call.eventId, event.restaurantId, None, None, Some(call.tableId),
                                    Some(call.waiterId), call.key, WAITER, RECEIVED)];
      lines := lines + AsLines(id, dishes.value);
      return Ok(id);
    }

    static lemma BookedMeansSold(venue: Venue.VenueState, versionId: Id, tables: seq<SeatMaps.TableSnapshot>, t: nat,
                                 availability: map<Id, Venue.SeatStatus>, now: int, status: TableStatus.BookingStatus)
      requires t < |tables| && TableStatus.Answers(availability, venue, versionId, SeatMaps.SeatIds(tables), None, now)
      requires TableStatus.Describes(status, tables[t].seats, availability)
      ensures status.BOOKED_TABLE? <==> HasSoldSeat(venue, versionId, tables[t])
    {
      forall i | 0 <= i < |tables[t].seats| ensures tables[t].seats[i].id in availability {
        TableStatus.SeatIdListed(tables, t, i);
      }
      if HasSoldSeat(venue, versionId, tables[t]) {
        var i :| 0 <= i < |tables[t].seats| && Venue.SeatKey(versionId, tables[t].seats[i].id) in venue.sold;
        assert availability[tables[t].seats[i].id] in {Venue.SOLD};
      }
    }

    method UpdateStatusById(id: Id, status: FoodStatus, manages: set<Id>) returns (r: Result<Id, FoodError>)
      modifies this
      ensures (Contents(), r) == UpdateById(old(Contents()), id, status, manages)
    {
      if id >= |orders| { return Err(FoodOrderNotFound); }
      if orders[id].restaurantId !in manages { return Err(Forbidden); }
      orders := orders[id := orders[id].(status := status)];
      return Ok(id);
    }

    method UpdateStatus(ticketId: Id, status: FoodStatus, manages: set<Id>) returns (r: Result<Id, FoodError>)
      modifies this
      ensures (Contents(), r) == UpdateByTicket(old(Contents()), ticketId, status, manages)
    {
      var found := FindByTicket(orders, ticketId);
      if found.None? { return Err(FoodOrderNotFound); }
      r := UpdateStatusById(found.value, status, manages);
    }

    method BulkUpdateStatus(ids: seq<Id>, status: FoodStatus, manages: set<Id>) returns (r: Result<seq<Id>, FoodError>)
      modifies this
      ensures (Contents(), r) == BulkUpdate(old(Contents()), ids, status, manages)
    {
      var results: seq<Id> := [];
      for i := 0 to |ids|
        invariant (Contents(), Ok(results)) == BulkUpdate(old(Contents()), ids[..i], status, manages)
      {
        assert ids[..i + 1][..i] == ids[..i];
        var one := UpdateStatusById(ids[i], status, manages);
        if one.Err? {
          BulkStops(old(Contents()), ids, i + 1, status, manages);
          return Err(one.error);
        }
        results := results + [one.value];
      }
      assert ids[..|ids|] == ids;
      return Ok(results);
    }

    static lemma {:induction false} BulkStops(st: Store, ids: seq<Id>, i: nat, status: FoodStatus, manages: set<Id>)
      requires i <= |ids| && BulkUpdate(st, ids[..i], status, manages).1.Err?
      ensures BulkUpdate(st, ids, status, manages) == BulkUpdate(st, ids[..i], status, manages)
      decreases |ids|
    {
      if i < |ids| {
        assert ids[..|ids| - 1][..i] == ids[..i];
        BulkStops(st, ids[..|ids| - 1], i, status, manages);
      } else {
        assert ids[..i] == ids;
      }
    }
  }
}
