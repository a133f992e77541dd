/** What every serial run of the order service keeps: saved items, quantity limits, promo counters. */
module OrderRuns {
  import opened Common
  import opened Pricing
  import opened Orders
  import SeatMaps
  import Venue

  // ----- How one op can change the orders table -----

  /** create() got through: the loop prepared the items and the promo code (if any) was valid. */
  ghost predicate PlacedBy(up: Upstream, shop: Shop, op: Op, order: Order) {
    && op.Place? && op.request.eventId in up.events
    && var items := PrepareAll(up, shop.orders, shop.venue, op.request.eventId,
                               up.events[op.request.eventId].seatMapVersionId, op.request.items, op.now).items;
       var promoId := PromoToApply(shop.promos, op.request, op.now);
    && items.Ok? && promoId.Ok? && order == Priced(op.request, op.buyerId, items.value, shop.promos, promoId.value)
  }

  ghost predicate StatusChanged(before: seq<Order>, after: seq<Order>, id: nat, status: OrderStatus) {
    && id < |before| && before[id].status == PENDING && status in {CONFIRMED, CANCELLED}
    && after == before[id := before[id].(status := status)]
  }

  lemma OrdersStep(up: Upstream, shop: Shop, op: Op)
    ensures var after := Do(up, shop, op).orders;
      || after == shop.orders
      || (exists order :: after == shop.orders + [order] && PlacedBy(up, shop, op, order))
      || (exists id: nat, status :: StatusChanged(shop.orders, after, id, status))
  {
    var after := Do(up, shop, op).orders;
    match op
    case Place(_, _, _) =>
      if after != shop.orders { assert PlacedBy(up, shop, op, after[|shop.orders|]); }
    case CancelOrder(id, caller, isAdmin) =>
      if CancelVerdict(shop.orders, id, caller, isAdmin).None? { assert StatusChanged(shop.orders, after, id, CANCELLED); }
    case ConfirmOrder(id) =>
      if id < |shop.orders| && shop.orders[id].status == PENDING { assert StatusChanged(shop.orders, after, id, CONFIRMED); }
    case _ =>
  }

  // ----- Saved items -----

  /** A saved item belongs to a tier of its event at that tier's price; a seated one names a seat
      of the event's snapshot, carries that seat's label, and obeys the tier's section restriction. */
  ghost predicate ItemFits(up: Upstream, eventId: Id, item: OrderItem) {
    && eventId in up.events
    && item.tierId in up.tiers && up.tiers[item.tierId].eventId == eventId && item.price == up.tiers[item.tierId].price
    && var versionId := up.events[eventId].seatMapVersionId;
    && (item.seatId.None? <==> versionId.None?)
    && (item.seatId.Some? ==>
          && versionId.value < |up.versions|
          && var info := SeatMaps.FindSeatInSnapshot(up.versions[versionId.value].snapshot.tables, item.seatId.value);
             info.Some? && item.seatLabel == Some(info.value.seatLabel) && SectionAllowed(up.tiers[item.tierId], info))
  }

  ghost predicate OrderFits(up: Upstream, order: Order) {
    && order.subtotal == Sum(order.items) && order.total == order.subtotal - order.discount
    && order.status in {PENDING, CONFIRMED, CANCELLED}
    && forall i :: 0 <= i < |order.items| ==> ItemFits(up, order.eventId, order.items[i])
  }

  lemma {:induction false} PreparedItemsFit(up: Upstream, orders: seq<Order>, venue: Venue.VenueState, eventId: Id, inputs: seq<ItemInput>, now: int)
    requires eventId in up.events
    ensures var items := PrepareAll(up, orders, venue, eventId, up.events[eventId].seatMapVersionId, inputs, now).items;
      items.Ok? ==> forall i :: 0 <= i < |items.value| ==> ItemFits(up, eventId, items.value[i])
    decreases |inputs|
  {
    if inputs != [] {
      var versionId := up.events[eventId].seatMapVersionId;
      var most, last := inputs[..|inputs| - 1], inputs[|inputs| - 1];
      PreparedItemsFit(up, orders, venue, eventId, most, now);
      var before := PrepareAll(up, orders, venue, eventId, versionId, most, now);
      if before.items.Ok? && last.seatId.Some? && versionId.Some? && versionId.value < |up.versions| {
        SeatMaps.SeatIdsAreFindable(up.versions[versionId.value].snapshot.tables, last.seatId.value);
      }
    }
  }

  lemma PlacedFits(up: Upstream, shop: Shop, op: Op, order: Order)
    requires PlacedBy(up, shop, op, order)
    ensures OrderFits(up, order)
  {
    PreparedItemsFit(up, shop.orders, shop.venue, op.request.eventId, op.request.items, op.now);
    var items := PrepareAll(up, shop.orders, shop.venue, op.request.eventId,
                            up.events[op.request.eventId].seatMapVersionId, op.request.items, op.now).items.value;
    assert order.items == items && order.eventId == op.request.eventId;
  }

  lemma DoKeepsOrders(up: Upstream, shop: Shop, op: Op)
    requires forall o :: 0 <= o < |shop.orders| ==> OrderFits(up, shop.orders[o])
    ensures forall o :: 0 <= o < |Do(up, shop, op).orders| ==> OrderFits(up, Do(up, shop, op).orders[o])
    ensures |shop.orders| <= |Do(up, shop, op).orders|
    ensures forall o :: 0 <= o < |shop.orders| ==>
      && Do(up, shop, op).orders[o].(status := PENDING) == shop.orders[o].(status := PENDING)
      && (shop.orders[o].status != PENDING ==> Do(up, shop, op).orders[o] == shop.orders[o])
  {
    OrdersStep(up, shop, op);
    var after := Do(up, shop, op).orders;
    if order :| after == shop.orders + [order] && PlacedBy(up, shop, op, order) {
      PlacedFits(up, shop, op, order);
    }
  }

  /** In every run: only PENDING, CONFIRMED and CANCELLED occur, subtotal/discount/total agree,
      and every saved item fits its event, its seat and its tier's sections. */
  lemma {:induction false} RunKeepsOrders(up: Upstream, ops: seq<Op>)
    ensures forall o :: 0 <= o < |Run(up, ops).orders| ==> OrderFits(up, Run(up, ops).orders[o])
    decreases |ops|
  {
    if ops != [] {
      RunKeepsOrders(up, ops[..|ops| - 1]);
      DoKeepsOrders(up, Run(up, ops[..|ops| - 1]), ops[|ops| - 1]);
    }
  }

  /** On published versions, the lookup behind a saved seat is the seat's only place: whatever
      table lists it gives the saved label, and a restricted tier allows that table's section. */
  lemma SavedSeatsObeySections(up: Upstream, ops: seq<Op>, o: nat, i: nat, t: nat, s: nat)
    requires SeatMaps.VersionsOk(up.versions)
    requires o < |Run(up, ops).orders| && i < |Run(up, ops).orders[o].items|
    requires var order := Run(up, ops).orders[o];
      && order.items[i].seatId.Some? && order.eventId in up.events
      && up.events[order.eventId].seatMapVersionId.Some? && up.events[order.eventId].seatMapVersionId.value < |up.versions|
      && SeatMaps.At(up.versions[up.events[order.eventId].seatMapVersionId.value].snapshot, t, s, order.items[i].seatId.value)
    ensures var order := Run(up, ops).orders[o];
      var table := up.versions[up.events[order.eventId].seatMapVersionId.value].snapshot.tables[t];
      && order.items[i].seatLabel == Some(table.seats[s].seatLabel)
      && order.items[i].tierId in up.tiers
      && (up.tiers[order.items[i].tierId].allowedSections != [] ==>
            table.sectionId.Some? && table.sectionId.value in up.tiers[order.items[i].tierId].allowedSections)
  {
    RunKeepsOrders(up, ops);
    var order := Run(up, ops).orders[o];
    assert ItemFits(up, order.eventId, order.items[i]);
    SeatMaps.LookupsAgreeWithPartition(up.versions[up.events[order.eventId].seatMapVersionId.value].snapshot, order.items[i].seatId.value);
  }

  // ----- Quantity limits -----

  function Requested(inputs: seq<ItemInput>, tierId: Id): nat {
    if inputs == [] then 0
    else Requested(inputs[..|inputs| - 1], tierId) + (if inputs[|inputs| - 1].tierId == tierId then 1 else 0)
  }

  /** A general-admission request: no seats, tiers of the event, on sale. */
  predicate Admissible(up: Upstream, eventId: Id, inputs: seq<ItemInput>, now: int) {
    forall i :: 0 <= i < |inputs| ==>
      && inputs[i].seatId.None? && inputs[i].tierId in up.tiers
      && up.tiers[inputs[i].tierId].eventId == eventId && OnSale(up.tiers[inputs[i].tierId], now)
  }

  predicate Limited(up: Upstream, tierId: Id) {
    tierId in up.tiers && up.tiers[tierId].quantityLimit.Some?
  }

  /** The request asks for tiers within their limits, counting what is already sold. */
  ghost predicate WithinLimits(up: Upstream, orders: seq<Order>, inputs: seq<ItemInput>) {
    forall tierId :: Limited(up, tierId) && Requested(inputs, tierId) > 0 ==>
      CountSold(orders, tierId) + Requested(inputs, tierId) <= up.tiers[tierId].quantityLimit.value
  }

  /** What the loop has counted when it is still going. */
  ghost predicate Counted(up: Upstream, orders: seq<Order>, prep: Prep, inputs: seq<ItemInput>) {
    && prep.items.Ok?
    && (forall tierId :: Limited(up, tierId) ==> Pending(prep.pending, tierId) == Requested(inputs, tierId))
    && (forall tierId :: CountTier(prep.items.value, tierId) == Requested(inputs, tierId))
    && WithinLimits(up, orders, inputs)
  }

  lemma RequestedSnoc(inputs: seq<ItemInput>, input: ItemInput)
    ensures forall tierId :: Requested(inputs + [input], tierId) == Requested(inputs, tierId) + (if input.tierId == tierId then 1 else 0)
  {
    assert (inputs + [input])[..|inputs|] == inputs;
  }

  lemma TierCountSnoc(items: seq<OrderItem>, item: OrderItem)
    ensures forall tierId :: CountTier(items + [item], tierId) == CountTier(items, tierId) + (if item.tierId == tierId then 1 else 0)
  {
    assert (items + [item])[..|items|] == items;
  }

  /** One more item without a seat: it is counted, or refused because its tier is sold out. */
  lemma ItemCounts(up: Upstream, orders: seq<Order>, prep: Prep, eventId: Id, inputs: seq<ItemInput>, input: ItemInput, now: int)
    requires Counted(up, orders, prep, inputs)
    ensures var after := PrepareItem(up, orders, prep, eventId, None, input, now);
      && (after.items.Ok? ==> Counted(up, orders, after, inputs + [input]))
      && (after.items.Err? && after.items.error.SoldOut? ==> !WithinLimits(up, orders, inputs + [input]))
      && (after.items.Err? && Admissible(up, eventId, inputs + [input], now) ==> after.items.error.SoldOut?)
  {
    hide CountSold, Requested, CountTier;
    var after := PrepareItem(up, orders, prep, eventId, None, input, now);
    RequestedSnoc(inputs, input);
    if after.items.Ok? {
      TierCountSnoc(prep.items.value, after.items.value[|prep.items.value|]);
    } else {
      assert (inputs + [input])[|inputs|] == input;
    }
  }

  lemma StillTooMany(up: Upstream, orders: seq<Order>, inputs: seq<ItemInput>, input: ItemInput)
    requires !WithinLimits(up, orders, inputs)
    ensures !WithinLimits(up, orders, inputs + [input])
  {
    RequestedSnoc(inputs, input);
    var tierId :| Limited(up, tierId) && Requested(inputs, tierId) > 0
      && CountSold(orders, tierId) + Requested(inputs, tierId) > up.tiers[tierId].quantityLimit.value;
    assert Requested(inputs + [input], tierId) >= Requested(inputs, tierId);
  }

  lemma AdmissiblePrefix(up: Upstream, eventId: Id, inputs: seq<ItemInput>, input: ItemInput, now: int)
    requires Admissible(up, eventId, inputs + [input], now)
    ensures Admissible(up, eventId, inputs, now)
  {
    forall i | 0 <= i < |inputs|
      ensures inputs[i].seatId.None? && inputs[i].tierId in up.tiers && up.tiers[inputs[i].tierId].eventId == eventId
              && OnSale(up.tiers[inputs[i].tierId], now)
    {
      assert (inputs + [input])[i] == inputs[i];
    }
  }

  lemma {:induction false} LoopCounts(up: Upstream, orders: seq<Order>, venue: Venue.VenueState, eventId: Id, inputs: seq<ItemInput>, now: int)
    ensures var prep := PrepareAll(up, orders, venue, eventId, None, inputs, now);
      && (prep.items.Ok? ==> Counted(up, orders, prep, inputs))
      && (prep.items.Err? && prep.items.error.SoldOut? ==> !WithinLimits(up, orders, inputs))
      && (prep.items.Err? && Admissible(up, eventId, inputs, now) ==> prep.items.error.SoldOut?)
    decreases |inputs|
  {
    if inputs != [] {
      hide PrepareItem, Counted, WithinLimits, Admissible;
      var most, last := inputs[..|inputs| - 1], inputs[|inputs| - 1];
      LoopCounts(up, orders, venue, eventId, most, now);
      assert most + [last] == inputs;
      var before := PrepareAll(up, orders, venue, eventId, None, most, now);
      if before.items.Ok? {
        ItemCounts(up, orders, before, eventId, most, last, now);
      } else {
        if before.items.error.SoldOut? { StillTooMany(up, orders, most, last); }
        if Admissible(up, eventId, inputs, now) { AdmissiblePrefix(up, eventId, most, last, now); }
      }
    }
  }

  /** An admissible request for an event without a seat map passes the item loop if and only if
      it keeps every limited tier within its limit; otherwise it is refused as sold out. */
  lemma LimitRefusesExactlyTheExcess(up: Upstream, orders: seq<Order>, venue: Venue.VenueState, eventId: Id, inputs: seq<ItemInput>, now: int)
    requires Admissible(up, eventId, inputs, now)
    ensures var items := PrepareAll(up, orders, venue, eventId, None, inputs, now).items;
      && (items.Ok? <==> WithinLimits(up, orders, inputs))
      && (items.Err? ==> items.error.SoldOut?)
  {
    LoopCounts(up, orders, venue, eventId, inputs, now);
  }

  lemma {:induction false} NoForeignItems(up: Upstream, eventId: Id, items: seq<OrderItem>, tierId: Id)
    requires forall i :: 0 <= i < |items| ==> ItemFits(up, eventId, items[i])
    requires tierId in up.tiers && up.tiers[tierId].eventId != eventId
    ensures CountTier(items, tierId) == 0
  {
    if items != [] { NoForeignItems(up, eventId, items[..|items| - 1], tierId); }
  }

  lemma {:induction false} CountSoldAfterUpdate(orders: seq<Order>, id: nat, order: Order, tierId: Id)
    requires id < |orders| && order.items == orders[id].items && !orders[id].status.CANCELLED?
    ensures CountSold(orders[id := order], tierId) <= CountSold(orders, tierId)
    decreases |orders|
  {
    var most := orders[..|orders| - 1];
    if id < |most| {
      assert orders[id := order][..|orders| - 1] == most[id := order];
      CountSoldAfterUpdate(most, id, order, tierId);
    } else {
      assert orders[id := order][..|orders| - 1] == most;
    }
  }

  lemma PlacedFitsTheTier(up: Upstream, shop: Shop, op: Op, order: Order, tierId: Id)
    requires PlacedBy(up, shop, op, order) && OrderFits(up, order) && Limited(up, tierId)
    requires up.tiers[tierId].eventId in up.events ==> up.events[up.tiers[tierId].eventId].seatMapVersionId.None?
    ensures CountTier(order.items, tierId) == 0
         || CountSold(shop.orders, tierId) + CountTier(order.items, tierId) <= up.tiers[tierId].quantityLimit.value
  {
    if op.request.eventId == up.tiers[tierId].eventId {
      LoopCounts(up, shop.orders, shop.venue, op.request.eventId, op.request.items, op.now);
    } else {
      NoForeignItems(up, op.request.eventId, order.items, tierId);
    }
  }

  /** Over every serial run of create, cancel and confirm, with any tiers mixed in one order: the
      non-cancelled items of a tier of an event without a seat map never pass the tier's limit. */
  lemma {:induction false} LimitHoldsOverRuns(up: Upstream, ops: seq<Op>, tierId: Id)
    requires Limited(up, tierId) && up.tiers[tierId].quantityLimit.value >= 0
    requires up.tiers[tierId].eventId in up.events ==> up.events[up.tiers[tierId].eventId].seatMapVersionId.None?
    ensures CountSold(Run(up, ops).orders, tierId) <= up.tiers[tierId].quantityLimit.value
    decreases |ops|
  {
    if ops != [] {
      var shop, op := Run(up, ops[..|ops| - 1]), ops[|ops| - 1];
      var after := Do(up, shop, op);
      LimitHoldsOverRuns(up, ops[..|ops| - 1], tierId);
      RunKeepsOrders(up, ops);
      OrdersStep(up, shop, op);
      hide Do, PlacedBy, OrderFits;
      if order :| after.orders == shop.orders + [order] && PlacedBy(up, shop, op, order) {
        assert after == Run(up, ops) && after.orders[|shop.orders|] == order;
        PlacedFitsTheTier(up, shop, op, order, tierId);
        assert after.orders[..|shop.orders|] == shop.orders;
      } else if id: nat, status :| StatusChanged(shop.orders, after.orders, id, status) {
        CountSoldAfterUpdate(shop.orders, id, shop.orders[id].(status := status), tierId);
      }
    }
  }

  // ----- Promo counters -----

  /** Orders that carry the code, cancelled ones included. */
  function Carrying(orders: seq<Order>, promoId: Id): nat {
    if orders == [] then 0
    else Carrying(orders[..|orders| - 1], promoId) + (if orders[|orders| - 1].promoId == Some(promoId) then 1 else 0)
  }

  lemma {:induction false} CarryingAfterUpdate(orders: seq<Order>, id: nat, order: Order, promoId: Id)
    requires id < |orders| && order.promoId == orders[id].promoId
    ensures Carrying(orders[id := order], promoId) == Carrying(orders, promoId)
    decreases |orders|
  {
    var most := orders[..|orders| - 1];
    if id < |most| {
      assert orders[id := order][..|orders| - 1] == most[id := order];
      CarryingAfterUpdate(most, id, order, promoId);
    } else {
      assert orders[id := order][..|orders| - 1] == most;
    }
  }

  lemma {:induction false} NoneCarryMissing(orders: seq<Order>, promoId: Id)
    requires forall o :: 0 <= o < |orders| ==> orders[o].promoId != Some(promoId)
    ensures Carrying(orders, promoId) == 0
  {
    if orders != [] { NoneCarryMissing(orders[..|orders| - 1], promoId); }
  }

  ghost predicate CountersAgree(shop: Shop) {
    && (forall o :: 0 <= o < |shop.orders| ==> shop.orders[o].promoId.Some? ==> shop.orders[o].promoId.value < |shop.promos|)
    && (forall p :: 0 <= p < |shop.promos| ==> shop.promos[p].usageCount == Carrying(shop.orders, p))
  }

  lemma DoKeepsCounters(up: Upstream, shop: Shop, op: Op)
    requires CountersAgree(shop)
    ensures CountersAgree(Do(up, shop, op))
  {
    var after := Do(up, shop, op);
    OrdersStep(up, shop, op);
    if order :| after.orders == shop.orders + [order] && PlacedBy(up, shop, op, order) {
      assert after.orders[..|shop.orders|] == shop.orders;
    } else if id: nat, status :| StatusChanged(shop.orders, after.orders, id, status) {
      hide PlacedBy, Create, Cancel, Confirm;
      forall p | 0 <= p < |shop.promos| ensures Carrying(after.orders, p) == Carrying(shop.orders, p) {
        CarryingAfterUpdate(shop.orders, id, shop.orders[id].(status := status), p);
      }
    }
    if op.AddPromo? { NoneCarryMissing(shop.orders, |shop.promos|); }
  }

  /** In every serial run, a code's usageCount is the number of orders that carry it. */
  lemma {:induction false} UsageCountsOrders(up: Upstream, ops: seq<Op>)
    ensures CountersAgree(Run(up, ops))
    decreases |ops|
  {
    if ops != [] {
      UsageCountsOrders(up, ops[..|ops| - 1]);
      DoKeepsCounters(up, Run(up, ops[..|ops| - 1]), ops[|ops| - 1]);
    }
  }

  /** The op leaves the code's limit as it is (a new row may be created with it). */
  predicate LimitFixed(shop: Shop, op: Op, promoId: Id, limit: nat) {
    && (op.EditPromo? && op.promoId == promoId ==> op.promo.usageLimit == Some(limit))
    && (op.AddPromo? && |shop.promos| == promoId ==> op.promo.usageLimit == Some(limit))
  }

  lemma StepKeepsLimit(up: Upstream, shop: Shop, op: Op, promoId: Id, limit: nat)
    requires LimitFixed(shop, op, promoId, limit)
    requires promoId < |shop.promos| ==> shop.promos[promoId].usageLimit == Some(limit)
    ensures promoId < |Do(up, shop, op).promos| ==> Do(up, shop, op).promos[promoId].usageLimit == Some(limit)
  {
  }

  lemma CarryingSnoc(orders: seq<Order>, order: Order, promoId: Id)
    ensures Carrying(orders + [order], promoId) == Carrying(orders, promoId) + (if order.promoId == Some(promoId) then 1 else 0)
  {
    assert (orders + [order])[..|orders|] == orders;
  }

  lemma PlacedWithinLimit(up: Upstream, shop: Shop, op: Op, order: Order, promoId: Id, limit: nat)
    requires CountersAgree(shop) && PlacedBy(up, shop, op, order)
    requires Carrying(shop.orders, promoId) <= limit
    requires promoId < |shop.promos| ==> shop.promos[promoId].usageLimit == Some(limit)
    ensures Carrying(shop.orders + [order], promoId) <= limit
  {
    CarryingSnoc(shop.orders, order, promoId);
    if order.promoId == Some(promoId) {
      assert Invalidity(shop.promos[promoId], op.now).None?;
    }
  }

  lemma StepStaysWithinLimit(up: Upstream, shop: Shop, op: Op, promoId: Id, limit: nat)
    requires CountersAgree(shop) && Carrying(shop.orders, promoId) <= limit
    requires promoId < |shop.promos| ==> shop.promos[promoId].usageLimit == Some(limit)
    ensures Carrying(Do(up, shop, op).orders, promoId) <= limit
  {
    OrdersStep(up, shop, op);
    var after := Do(up, shop, op).orders;
    if after == shop.orders {
    } else if order :| after == shop.orders + [order] && PlacedBy(up, shop, op, order) {
      PlacedWithinLimit(up, shop, op, order, promoId, limit);
    } else {
      var id: nat, status :| StatusChanged(shop.orders, after, id, status);
      CarryingAfterUpdate(shop.orders, id, shop.orders[id].(status := status), promoId);
    }
  }

  /** A code whose limit stays fixed is never carried by more orders than the limit. */
  lemma {:induction false} UsageStaysWithinLimit(up: Upstream, ops: seq<Op>, promoId: Id, limit: nat)
    requires forall k :: 0 <= k < |ops| ==> LimitFixed(Run(up, ops[..k]), ops[k], promoId, limit)
    ensures Carrying(Run(up, ops).orders, promoId) <= limit
    ensures promoId < |Run(up, ops).promos| ==> Run(up, ops).promos[promoId].usageLimit == Some(limit)
    decreases |ops|
  {
    if ops != [] {
      var most, op := ops[..|ops| - 1], ops[|ops| - 1];
      forall k | 0 <= k < |most| ensures LimitFixed(Run(up, most[..k]), most[k], promoId, limit) {
        assert most[..k] == ops[..k];
      }
      UsageStaysWithinLimit(up, most, promoId, limit);
      UsageCountsOrders(up, most);
      assert LimitFixed(Run(up, most), op, promoId, limit);
      var shop := Run(up, most);
      StepStaysWithinLimit(up, shop, op, promoId, limit);
      StepKeepsLimit(up, shop, op, promoId, limit);
      assert Run(up, ops) == Do(up, shop, op);
    }
  }

  // ----- Codes -----

  /** Codes are stored in capitals, one row an (event, code). */
  ghost predicate CodesOk(promos: seq<Promo>) {
    && (forall i :: 0 <= i < |promos| ==> Upper(promos[i].code) == promos[i].code)
    && (forall i, j :: 0 <= i < j < |promos| && promos[i].eventId == promos[j].eventId ==> promos[i].code != promos[j].code)
  }

  lemma UpperTwice(code: string)
    ensures Upper(Upper(code)) == Upper(code)
  {
  }

  lemma StepKeepsCodes(up: Upstream, shop: Shop, op: Op)
    requires CodesOk(shop.promos)
    ensures CodesOk(Do(up, shop, op).promos)
  {
    var after := Do(up, shop, op).promos;
    match op
    case AddPromo(promo) => UpperTwice(promo.code);
    case _ =>
      assert |after| == |shop.promos|;
      assert forall i :: 0 <= i < |after| ==> after[i].code == shop.promos[i].code && after[i].eventId == shop.promos[i].eventId;
  }

  lemma {:induction false} RunKeepsCodes(up: Upstream, ops: seq<Op>)
    ensures CodesOk(Run(up, ops).promos)
    decreases |ops|
  {
    if ops != [] {
      RunKeepsCodes(up, ops[..|ops| - 1]);
      StepKeepsCodes(up, Run(up, ops[..|ops| - 1]), ops[|ops| - 1]);
    }
  }

  /** However the buyer capitalises it, a code finds its event's one row and no other: checkout applies
      that row, or stops for that row's reason. */
  lemma CodesIgnoreCase(up: Upstream, ops: seq<Op>, i: nat, request: OrderRequest, now: int)
    requires i < |Run(up, ops).promos| && request.promoCode.Some?
    requires request.eventId == Run(up, ops).promos[i].eventId && Upper(request.promoCode.value) == Run(up, ops).promos[i].code
    ensures var promos := Run(up, ops).promos;
      PromoToApply(promos, request, now)
      == (match Invalidity(promos[i], now) case Some(reason) => Err(reason) case None => Ok(Some(i)))
  {
    RunKeepsCodes(up, ops);
  }
}
