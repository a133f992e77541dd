/** The order service: create (seat claims, quantity limit, pricing), cancel and confirmPayment,
    as functions of the service's tables, its read-only upstreams and the venue's holds. */
module Orders {
  import opened Common
  import opened Pricing
  import SeatMaps
  import Venue

  datatype EventStatus = DRAFT | PUBLISHED | CALLED_OFF | COMPLETED
  datatype Event = Event(status: EventStatus, seatMapVersionId: Option<Id>)
  datatype Tier = Tier(
    eventId: Id, price: int, saleStart: Option<int>, saleEnd: Option<int>,
    allowedSections: seq<Id>,  // empty stands for null as well
    quantityLimit: Option<int>)

  /** What create() reads from the event and venue services. */
  datatype Upstream = Upstream(events: map<Id, Event>, tiers: map<Id, Tier>, versions: seq<SeatMaps.Version>)

  datatype OrderStatus = PENDING | PAID | CONFIRMED | CANCELLED | REFUNDED
  datatype PaymentMethod = PAYHERE | PAYMENT_PROOF

  datatype Order = Order(
    buyerId: Id, eventId: Id, status: OrderStatus, subtotal: int, discount: int, total: int,
    promoId: Option<Id>, paymentMethod: PaymentMethod, items: seq<OrderItem>)

  datatype ItemInput = ItemInput(tierId: Id, seatId: Option<Id>, holderToken: Option<Venue.Token>)
  datatype OrderRequest = OrderRequest(eventId: Id, paymentMethod: PaymentMethod, items: seq<ItemInput>, promoCode: Option<string>)

  datatype OrderError =
    | EventNotFound | NotOpen | TierNotFound | WrongEvent | SalesClosed | SeatRequired | TokenRequired | NoSeatMap
    | VenueUnavailable | SeatLost | SectionNotAllowed | SoldOut(tierId: Id)
    | UnknownPromo | PromoInactive | PromoExpired | PromoUsedUp
    | OrderNotFound | Forbidden | NotPending | CannotConfirm

  /** The orders and promo_codes tables (an id is a row's position) and the venue's state. */
  datatype Shop = Shop(orders: seq<Order>, promos: seq<Promo>, venue: Venue.VenueState)

  const EMPTY := Shop([], [], Venue.EMPTY)

  // ----- create() -----

  function CountTier(items: seq<OrderItem>, tierId: Id): nat {
    if items == [] then 0
    else CountTier(items[..|items| - 1], tierId) + (if items[|items| - 1].tierId == tierId then 1 else 0)
  }

  /** countSoldItemsForTier: items of the tier on orders that are not cancelled. */
  function CountSold(orders: seq<Order>, tierId: Id): nat {
    if orders == [] then 0
    else
      var last := orders[|orders| - 1];
      CountSold(orders[..|orders| - 1], tierId) + (if last.status.CANCELLED? then 0 else CountTier(last.items, tierId))
  }

  /** The loop's progress: holds stretched so far, pendingCountByTier, and the prepared items. */
  datatype Prep = Prep(venue: Venue.VenueState, pending: map<Id, nat>, items: Result<seq<OrderItem>, OrderError>)

  function Pending(pending: map<Id, nat>, tierId: Id): nat {
    if tierId in pending then pending[tierId] else 0
  }

  predicate OnSale(tier: Tier, now: int) {
    && (tier.saleStart.Some? ==> tier.saleStart.value <= now)
    && (tier.saleEnd.Some? ==> now <= tier.saleEnd.value)
  }

  predicate SectionAllowed(tier: Tier, info: Option<SeatMaps.SeatInfo>) {
    tier.allowedSections != [] && info.Some? ==>
      info.value.sectionId.Some? && info.value.sectionId.value in tier.allowedSections
  }

  /** Claims the seat: availability must read HELD_BY_ME, then the hold is stretched. */
  function ClaimSeat(up: Upstream, venue: Venue.VenueState, versionId: Id, seatId: Id, token: Venue.Token, now: int)
    : (Venue.VenueState, Result<Option<SeatMaps.SeatInfo>, OrderError>)
  {
    if versionId >= |up.versions| then (venue, Err(VenueUnavailable))
    else
      var tables := up.versions[versionId].snapshot.tables;
      var key := Venue.SeatKey(versionId, seatId);
      if seatId !in SeatMaps.SeatIds(tables) || Venue.StatusOf(venue, key, Some(token), now) != Venue.HELD_BY_ME
      then (venue, Err(SeatLost))
      else
        var (claimed, reply) := Venue.ReserveForOrder(venue, key, token, now);
        if reply.Err? then (claimed, Err(SeatLost)) else (claimed, Ok(SeatMaps.FindSeatInSnapshot(tables, seatId)))
  }

  /** One turn of the item loop. */
  function PrepareItem(up: Upstream, orders: seq<Order>, prep: Prep, eventId: Id, versionId: Option<Id>, input: ItemInput, now: int): Prep
    requires prep.items.Ok?
  {
    if input.tierId !in up.tiers then prep.(items := Err(TierNotFound))
    else
      var tier := up.tiers[input.tierId];
      if tier.eventId != eventId then prep.(items := Err(WrongEvent))
      else if !OnSale(tier, now) then prep.(items := Err(SalesClosed))
      else match input.seatId
        case None =>
          if versionId.Some? then prep.(items := Err(SeatRequired))
          else
            var item := OrderItem(input.tierId, None, None, tier.price);
            if tier.quantityLimit.None? then prep.(items := Ok(prep.items.value + [item]))
            else
              var pending := Pending(prep.pending, input.tierId);
              if CountSold(orders, input.tierId) + pending + 1 > tier.quantityLimit.value
              then prep.(items := Err(SoldOut(input.tierId)))
              else Prep(prep.venue, prep.pending[input.tierId := pending + 1], Ok(prep.items.value + [item]))
        case Some(seatId) =>
          if input.holderToken.None? then prep.(items := Err(TokenRequired))
          else if versionId.None? then prep.(items := Err(NoSeatMap))
          else
            var (venue, info) := ClaimSeat(up, prep.venue, versionId.value, seatId, input.holderToken.value, now);
            if info.Err? then Prep(venue, prep.pending, Err(info.error))
            else if !SectionAllowed(tier, info.value) then Prep(venue, prep.pending, Err(SectionNotAllowed))
            else
              var seatLabel := if info.value.Some? then Some(info.value.value.seatLabel) else None;
              Prep(venue, prep.pending, Ok(prep.items.value + [OrderItem(input.tierId, Some(seatId), seatLabel, tier.price)]))
  }

  /** The loop over the first items; it stops at the first exception, keeping the holds it stretched. */
  function PrepareAll(up: Upstream, orders: seq<Order>, venue: Venue.VenueState, eventId: Id, versionId: Option<Id>, inputs: seq<ItemInput>, now: int): Prep
    decreases |inputs|
  {
    if inputs == [] then Prep(venue, map[], Ok([]))
    else
      var before := PrepareAll(up, orders, venue, eventId, versionId, inputs[..|inputs| - 1], now);
      if before.items.Err? then before else PrepareItem(up, orders, before, eventId, versionId, inputs[|inputs| - 1], now)
  }

  /** String.toUpperCase, for the letters of ASCII. */
  function Upper(code: string): (r: string)
    ensures |r| == |code|
  {
    seq(|code|, i requires 0 <= i < |code| => if 'a' <= code[i] <= 'z' then (code[i] as int - 32) as char else code[i])
  }

  function FindPromo(promos: seq<Promo>, eventId: Id, code: string): (i: Option<nat>)
    ensures i.Some? ==> i.value < |promos| && promos[i.value].eventId == eventId && promos[i.value].code == code
    ensures i.None? ==> forall j :: 0 <= j < |promos| ==> promos[j].eventId != eventId || promos[j].code != code
  {
    if promos == [] then None
    else
      var last := |promos| - 1;
      if promos[last].eventId == eventId && promos[last].code == code then Some(last)
      else FindPromo(promos[..last], eventId, code)
  }

  /** checkValidity. */
  function Invalidity(promo: Promo, now: int): Option<OrderError> {
    if !promo.isActive then Some(PromoInactive)
    else if promo.expiresAt.Some? && promo.expiresAt.value < now then Some(PromoExpired)
    else if promo.usageLimit.Some? && promo.usageCount >= promo.usageLimit.value then Some(PromoUsedUp)
    else None
  }

  /** findValidForApplication: the row to apply, or the reason checkout stops. */
  function PromoToApply(promos: seq<Promo>, request: OrderRequest, now: int): (r: Result<Option<nat>, OrderError>)
    ensures r.Ok? && r.value.Some? ==> r.value.value < |promos| && Invalidity(promos[r.value.value], now).None?
    ensures r.Ok? ==> (r.value.Some? <==> request.promoCode.Some?)
  {
    match request.promoCode
    case None => Ok(None)
    case Some(code) =>
      match FindPromo(promos, request.eventId, Upper(code))
      case None => Err(UnknownPromo)
      case Some(i) =>
        match Invalidity(promos[i], now) case Some(reason) => Err(reason) case None => Ok(Some(i))
  }

  function Priced(request: OrderRequest, buyerId: Id, items: seq<OrderItem>, promos: seq<Promo>, promoId: Option<nat>): Order
    requires promoId.Some? ==> promoId.value < |promos|
  {
    var discount := if promoId.Some? then Discount(items, promos[promoId.value]) else 0;
    Order(buyerId, request.eventId, PENDING, Sum(items), discount, Sum(items) - discount, promoId, request.paymentMethod, items)
  }

  function Increment(promos: seq<Promo>, promoId: Option<nat>): seq<Promo>
    requires promoId.Some? ==> promoId.value < |promos|
  {
    match promoId
    case None => promos
    case Some(i) => promos[i := promos[i].(usageCount := promos[i].usageCount + 1)]
  }

  function Create(up: Upstream, shop: Shop, buyerId: Id, request: OrderRequest, now: int): (Shop, Result<Id, OrderError>) {
    if request.eventId !in up.events then (shop, Err(EventNotFound))
    else
      var event := up.events[request.eventId];
      if event.status != PUBLISHED then (shop, Err(NotOpen))
      else
        var prep := PrepareAll(up, shop.orders, shop.venue, request.eventId, event.seatMapVersionId, request.items, now);
        var claimed := shop.(venue := prep.venue);
        if prep.items.Err? then (claimed, Err(prep.items.error))
        else match PromoToApply(shop.promos, request, now)
          case Err(reason) => (claimed, Err(reason))
          case Ok(promoId) =>
            (Shop(shop.orders + [Priced(request, buyerId, prep.items.value, shop.promos, promoId)],
                  Increment(shop.promos, promoId), prep.venue),
             Ok(|shop.orders|))
  }

  // ----- cancel() and confirmPayment() -----

  function FreeSeats(venue: Venue.VenueState, versionId: Id, items: seq<OrderItem>): Venue.VenueState {
    if items == [] then venue
    else
      var before, last := FreeSeats(venue, versionId, items[..|items| - 1]), items[|items| - 1];
      if last.seatId.Some? then Venue.ReleaseForOrder(before, Venue.SeatKey(versionId, last.seatId.value)) else before
  }

  function CancelVerdict(orders: seq<Order>, id: Id, caller: Id, isAdmin: bool): Option<OrderError> {
    if id >= |orders| then Some(OrderNotFound)
    else if !isAdmin && orders[id].buyerId != caller then Some(Forbidden)
    else if orders[id].status != PENDING then Some(NotPending)
    else None
  }

  function Cancel(up: Upstream, shop: Shop, id: Id, caller: Id, isAdmin: bool): (Shop, Result<(), OrderError>) {
    match CancelVerdict(shop.orders, id, caller, isAdmin)
    case Some(error) => (shop, Err(error))
    case None =>
      var order := shop.orders[id];
      var cancelled := shop.(orders := shop.orders[id := order.(status := CANCELLED)]);
      if order.eventId in up.events && up.events[order.eventId].seatMapVersionId.Some?
      then (cancelled.(venue := FreeSeats(shop.venue, up.events[order.eventId].seatMapVersionId.value, order.items)), Ok(()))
      else (cancelled, Ok(()))
  }

  function Confirm(orders: seq<Order>, id: Id): (seq<Order>, Result<(), OrderError>) {
    if id >= |orders| then (orders, Err(OrderNotFound))
    else match orders[id].status
      case CONFIRMED => (orders, Ok(()))
      case PENDING => (orders[id := orders[id].(status := CONFIRMED)], Ok(()))
      case _ => (orders, Err(CannotConfirm))
  }

  // ----- Serial runs -----

  datatype Op =
    | Place(buyerId: Id, request: OrderRequest, now: int)
    | CancelOrder(id: Id, caller: Id, isAdmin: bool)
    | ConfirmOrder(id: Id)
    | AddPromo(promo: Promo)
    | EditPromo(promoId: Id, promo: Promo)
    | Traffic(call: Venue.Call, at: int)

  function Do(up: Upstream, shop: Shop, op: Op): Shop {
    match op
    case Place(buyerId, request, now) => Create(up, shop, buyerId, request, now).0
    case CancelOrder(id, caller, isAdmin) => Cancel(up, shop, id, caller, isAdmin).0
    case ConfirmOrder(id) => shop.(orders := Confirm(shop.orders, id).0)
    case AddPromo(promo) =>
      // Unique (event, code), with the code stored in capitals; a new row starts unused.
      if FindPromo(shop.promos, promo.eventId, Upper(promo.code)).Some? then shop
      else shop.(promos := shop.promos + [promo.(code := Upper(promo.code), usageCount := 0)])
    case EditPromo(i, promo) =>
      // The update DTO reaches every field but the event, the code and the counter.
      if i >= |shop.promos| then shop
      else
        var row := shop.promos[i];
        shop.(promos := shop.promos[i := promo.(eventId := row.eventId, code := row.code, usageCount := row.usageCount)])
    case Traffic(call, at) => shop.(venue := Venue.After(shop.venue, call, at))
  }

  function Run(up: Upstream, ops: seq<Op>): Shop
    decreases |ops|
  {
    if ops == [] then EMPTY else Do(up, Run(up, ops[..|ops| - 1]), ops[|ops| - 1])
  }
}
