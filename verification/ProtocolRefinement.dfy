/** The protocol's small steps against the whole calls of Orders and Payments: a call that nobody
    interrupts takes the state machine exactly where the whole call says. */
module ProtocolRefinement {
  import opened Common
  import opened Venue
  import opened Protocol
  import opened ProtocolRuns
  import Pricing
  import Orders
  import Payments

  // ----- create() -----

  /** The machine's steps for the item loop. */
  function ItemSteps(req: Id, inputs: seq<Orders.ItemInput>): seq<Step> {
    if inputs == [] then []
    else
      ItemSteps(req, inputs[..|inputs| - 1])
      + (if inputs[|inputs| - 1].seatId.None? then [Step.Create(req, TakeUnseated)]
         else [Step.Create(req, CheckSeat), Step.Create(req, ReserveSeat)])
  }

  function Working(w: World, req: Id, c: Creating, venue: VenueState, done: nat): World {
    w.(venue := venue, creating := w.creating[req := c.(done := done, checked := false)])
  }

  lemma UnseatedItem(w: World, req: Id, c: Creating, venue: VenueState, k: nat)
    requires k < |c.inputs| && c.inputs[k].seatId.None? && c.versionId.None?
    ensures Next(Working(w, req, c, venue, k), Step.Create(req, TakeUnseated)) == Working(w, req, c, venue, k + 1)
  {
    assert w.creating[req := c.(done := k, checked := false)][req := c.(done := k + 1, checked := false)]
        == w.creating[req := c.(done := k + 1, checked := false)];
  }

  function Seen(w: World, req: Id, c: Creating, venue: VenueState, k: nat): World {
    w.(venue := venue, creating := w.creating[req := c.(done := k, checked := true)])
  }

  lemma SeatChecks(w: World, req: Id, c: Creating, venue: VenueState, k: nat)
    requires k < |c.inputs| && Claimable(c, k)
    requires StatusOf(venue, ClaimKey(c, k), c.inputs[k].holderToken, w.now) == HELD_BY_ME
    ensures Next(Working(w, req, c, venue, k), Step.Create(req, CheckSeat)) == Seen(w, req, c, venue, k)
  {
    assert w.creating[req := c.(done := k, checked := false)][req := c.(done := k, checked := true)]
        == w.creating[req := c.(done := k, checked := true)];
  }

  lemma SeatReserves(w: World, req: Id, c: Creating, venue: VenueState, k: nat)
    requires k < |c.inputs| && Claimable(c, k)
    requires ReserveForOrder(venue, ClaimKey(c, k), c.inputs[k].holderToken.value, w.now).1.Ok?
    ensures Next(Seen(w, req, c, venue, k), Step.Create(req, ReserveSeat))
      == Working(w, req, c, ReserveForOrder(venue, ClaimKey(c, k), c.inputs[k].holderToken.value, w.now).0, k + 1)
  {
    var seen := c.(done := k, checked := true);
    assert ClaimKey(seen, k) == ClaimKey(c, k);
    assert w.creating[req := seen][req := c.(done := k + 1, checked := false)] == w.creating[req := c.(done := k + 1, checked := false)];
  }

  /** What a prepared item tells about its input: unseated on an unmapped event, or claimed. */
  lemma ItemMeans(up: Orders.Upstream, orders: seq<Orders.Order>, prep: Orders.Prep, eventId: Id, versionId: Option<Id>,
                  input: Orders.ItemInput, now: int)
    requires prep.items.Ok? && Orders.PrepareItem(up, orders, prep, eventId, versionId, input, now).items.Ok?
    ensures var after := Orders.PrepareItem(up, orders, prep, eventId, versionId, input, now);
      && |after.items.value| == |prep.items.value| + 1 && after.items.value[..|prep.items.value|] == prep.items.value
      && after.items.value[|prep.items.value|].tierId == input.tierId && after.items.value[|prep.items.value|].seatId == input.seatId
      && (input.seatId.None? ==> versionId.None? && after.venue == prep.venue)
      && (input.seatId.Some? ==>
            && versionId.Some? && input.holderToken.Some?
            && var key := SeatKey(versionId.value, input.seatId.value);
               && StatusOf(prep.venue, key, input.holderToken, now) == HELD_BY_ME
               && ReserveForOrder(prep.venue, key, input.holderToken.value, now) == (after.venue, ReserveForOrder(prep.venue, key, input.holderToken.value, now).1)
               && ReserveForOrder(prep.venue, key, input.holderToken.value, now).1.Ok?)
  {
  }

  lemma LoopSnoc(up: Orders.Upstream, orders: seq<Orders.Order>, venue: VenueState, eventId: Id, versionId: Option<Id>,
                 inputs: seq<Orders.ItemInput>, k: nat, now: int)
    requires k < |inputs| && Orders.PrepareAll(up, orders, venue, eventId, versionId, inputs[..k + 1], now).items.Ok?
    ensures var before := Orders.PrepareAll(up, orders, venue, eventId, versionId, inputs[..k], now);
      before.items.Ok? && Orders.PrepareAll(up, orders, venue, eventId, versionId, inputs[..k + 1], now)
                          == Orders.PrepareItem(up, orders, before, eventId, versionId, inputs[k], now)
  {
    assert inputs[..k + 1][..k] == inputs[..k];
  }

  /** One more turn of the loop, as steps. */
  lemma OneItemRuns(w: World, req: Id, c: Creating, before: VenueState, after: VenueState, k: nat, start: World, most: seq<Step>)
    requires k < |c.inputs| && Run(start, most) == Working(w, req, c, before, k)
    requires c.inputs[k].seatId.None? ==> c.versionId.None? && after == before
    requires c.inputs[k].seatId.Some? ==>
      && Claimable(c, k) && StatusOf(before, ClaimKey(c, k), c.inputs[k].holderToken, w.now) == HELD_BY_ME
      && ReserveForOrder(before, ClaimKey(c, k), c.inputs[k].holderToken.value, w.now).1.Ok?
      && ReserveForOrder(before, ClaimKey(c, k), c.inputs[k].holderToken.value, w.now).0 == after
    ensures Run(start, most + (if c.inputs[k].seatId.None? then [Step.Create(req, TakeUnseated)]
                               else [Step.Create(req, CheckSeat), Step.Create(req, ReserveSeat)]))
      == Working(w, req, c, after, k + 1)
  {
    if c.inputs[k].seatId.None? {
      UnseatedItem(w, req, c, before, k);
      Extend(start, most, Step.Create(req, TakeUnseated));
    } else {
      SeatChecks(w, req, c, before, k);
      SeatReserves(w, req, c, before, k);
      Pair(start, most, Step.Create(req, CheckSeat), Step.Create(req, ReserveSeat));
    }
  }

  lemma StepsSnoc(req: Id, inputs: seq<Orders.ItemInput>, k: nat)
    requires k < |inputs|
    ensures ItemSteps(req, inputs[..k + 1])
      == ItemSteps(req, inputs[..k]) + (if inputs[k].seatId.None? then [Step.Create(req, TakeUnseated)]
                                        else [Step.Create(req, CheckSeat), Step.Create(req, ReserveSeat)])
  {
    assert inputs[..k + 1][..k] == inputs[..k];
  }

  function LoopVenue(up: Orders.Upstream, w: World, c: Creating, k: nat): VenueState
    requires k <= |c.inputs|
  {
    Orders.PrepareAll(up, w.orders, w.venue, c.eventId, c.versionId, c.inputs[..k], w.now).venue
  }

  lemma OneTurn(up: Orders.Upstream, w: World, req: Id, c: Creating, k: nat, start: World)
    requires k < |c.inputs| && Orders.PrepareAll(up, w.orders, w.venue, c.eventId, c.versionId, c.inputs[..k + 1], w.now).items.Ok?
    requires Run(start, ItemSteps(req, c.inputs[..k])) == Working(w, req, c, LoopVenue(up, w, c, k), k)
    ensures Run(start, ItemSteps(req, c.inputs[..k + 1])) == Working(w, req, c, LoopVenue(up, w, c, k + 1), k + 1)
  {
    var before := Orders.PrepareAll(up, w.orders, w.venue, c.eventId, c.versionId, c.inputs[..k], w.now);
    LoopSnoc(up, w.orders, w.venue, c.eventId, c.versionId, c.inputs, k, w.now);
    ItemMeans(up, w.orders, before, c.eventId, c.versionId, c.inputs[k], w.now);
    StepsSnoc(req, c.inputs, k);
    OneItemRuns(w, req, c, before.venue, LoopVenue(up, w, c, k + 1), k, start, ItemSteps(req, c.inputs[..k]));
  }

  lemma {:induction false} ItemLoopRuns(up: Orders.Upstream, w: World, req: Id, c: Creating, k: nat)
    requires k <= |c.inputs| && Orders.PrepareAll(up, w.orders, w.venue, c.eventId, c.versionId, c.inputs[..k], w.now).items.Ok?
    ensures Run(Working(w, req, c, w.venue, 0), ItemSteps(req, c.inputs[..k])) == Working(w, req, c, LoopVenue(up, w, c, k), k)
    decreases k
  {
    hide Next, Orders.PrepareItem;
    if k > 0 {
      LoopSnoc(up, w.orders, w.venue, c.eventId, c.versionId, c.inputs, k - 1, w.now);
      ItemLoopRuns(up, w, req, c, k - 1);
      OneTurn(up, w, req, c, k - 1, Working(w, req, c, w.venue, 0));
    }
  }

  lemma BeginRuns(w: World, req: Id, buyerId: Id, request: Orders.OrderRequest)
    requires req !in w.creating && request.eventId in w.eventVersion
    ensures Next(w, CreateBegin(req, buyerId, request.eventId, request.paymentMethod, request.items))
      == Working(w, req, Creating(buyerId, request.eventId, w.eventVersion[request.eventId], request.paymentMethod, request.items, 0, false), w.venue, 0)
  {
  }

  lemma {:induction false} ItemsMatchInputs(up: Orders.Upstream, orders: seq<Orders.Order>, venue: VenueState, eventId: Id, versionId: Option<Id>,
                                            inputs: seq<Orders.ItemInput>, k: nat, now: int)
    requires k <= |inputs| && Orders.PrepareAll(up, orders, venue, eventId, versionId, inputs[..k], now).items.Ok?
    ensures Prepared(inputs[..k], Orders.PrepareAll(up, orders, venue, eventId, versionId, inputs[..k], now).items.value)
    decreases k
  {
    hide Orders.PrepareItem;
    if k > 0 {
      LoopSnoc(up, orders, venue, eventId, versionId, inputs, k - 1, now);
      var before := Orders.PrepareAll(up, orders, venue, eventId, versionId, inputs[..k - 1], now);
      ItemsMatchInputs(up, orders, venue, eventId, versionId, inputs, k - 1, now);
      OneItemMatches(up, orders, before, eventId, versionId, inputs, k - 1, now);
    }
  }

  lemma OneItemMatches(up: Orders.Upstream, orders: seq<Orders.Order>, prep: Orders.Prep, eventId: Id, versionId: Option<Id>,
                       inputs: seq<Orders.ItemInput>, k: nat, now: int)
    requires k < |inputs| && prep.items.Ok? && Prepared(inputs[..k], prep.items.value)
    requires Orders.PrepareItem(up, orders, prep, eventId, versionId, inputs[k], now).items.Ok?
    ensures Prepared(inputs[..k + 1], Orders.PrepareItem(up, orders, prep, eventId, versionId, inputs[k], now).items.value)
  {
    ItemMeans(up, orders, prep, eventId, versionId, inputs[k], now);
    PreparedSnoc(inputs, k, prep.items.value, Orders.PrepareItem(up, orders, prep, eventId, versionId, inputs[k], now).items.value);
  }

  lemma PreparedSnoc(inputs: seq<Orders.ItemInput>, k: nat, before: seq<Pricing.OrderItem>, after: seq<Pricing.OrderItem>)
    requires k < |inputs| && Prepared(inputs[..k], before) && |after| == k + 1 && after[..k] == before
    requires after[k].tierId == inputs[k].tierId && after[k].seatId == inputs[k].seatId
    ensures Prepared(inputs[..k + 1], after)
  {
    forall j | 0 <= j < k ensures after[j] == before[j] && inputs[..k][j] == inputs[j] { assert after[..k][j] == after[j]; }
  }

  lemma SaveRuns(w: World, req: Id, c: Creating, venue: VenueState, items: seq<Pricing.OrderItem>, discount: int, promoId: Option<Id>)
    requires req !in w.creating && Prepared(c.inputs, items)
    ensures Next(Working(w, req, c, venue, |c.inputs|), Step.Create(req, SaveOrder(items, discount, promoId))) == w.(
      venue := venue, tokens := w.tokens + [TokensOf(c.inputs)],
      orders := w.orders + [Orders.Order(c.buyerId, c.eventId, Orders.PENDING, Pricing.Sum(items), discount, Pricing.Sum(items) - discount,
                                         promoId, c.paymentMethod, items)])
  {
    assert w.creating[req := c.(done := |c.inputs|, checked := false)] - {req} == w.creating;
  }

  /** The machine's steps for a whole create(). */
  function CreateSteps(req: Id, buyerId: Id, request: Orders.OrderRequest, order: Orders.Order): seq<Step> {
    [CreateBegin(req, buyerId, request.eventId, request.paymentMethod, request.items)]
    + ItemSteps(req, request.items)
    + [Step.Create(req, SaveOrder(order.items, order.discount, order.promoId))]
  }

  /** What a create() that got through has saved. */
  lemma CreateMeans(up: Orders.Upstream, shop: Orders.Shop, buyerId: Id, request: Orders.OrderRequest, now: int)
    requires request.eventId in up.events && Orders.Create(up, shop, buyerId, request, now).1.Ok?
    ensures var after := Orders.Create(up, shop, buyerId, request, now).0;
      var prep := Orders.PrepareAll(up, shop.orders, shop.venue, request.eventId, up.events[request.eventId].seatMapVersionId, request.items, now);
      && prep.items.Ok? && after.venue == prep.venue && |after.orders| == |shop.orders| + 1
      && var order := after.orders[|shop.orders|];
         && after.orders == shop.orders + [order] && order.items == prep.items.value
         && order == Orders.Order(buyerId, request.eventId, Orders.PENDING, Pricing.Sum(order.items), order.discount,
                                  Pricing.Sum(order.items) - order.discount, order.promoId, request.paymentMethod, order.items)
  {
  }

  /** Whatever order a whole create() saves, the machine saves too, with the same effect on the
      orders and the venue and none on anything else. */
  lemma CreateRefines(up: Orders.Upstream, promos: seq<Pricing.Promo>, w: World, req: Id, buyerId: Id, request: Orders.OrderRequest)
    requires req !in w.creating && request.eventId in w.eventVersion && request.eventId in up.events
    requires up.events[request.eventId].seatMapVersionId == w.eventVersion[request.eventId]
    requires Orders.Create(up, Orders.Shop(w.orders, promos, w.venue), buyerId, request, w.now).1.Ok?
    ensures var after := Orders.Create(up, Orders.Shop(w.orders, promos, w.venue), buyerId, request, w.now).0;
      && |after.orders| == |w.orders| + 1
      && Run(w, CreateSteps(req, buyerId, request, after.orders[|w.orders|]))
         == w.(orders := after.orders, venue := after.venue, tokens := w.tokens + [TokensOf(request.items)])
  {
    var shop := Orders.Shop(w.orders, promos, w.venue);
    CreateMeans(up, shop, buyerId, request, w.now);
    var after := Orders.Create(up, shop, buyerId, request, w.now).0;
    StepsSave(up, w, req, buyerId, request, after.orders[|w.orders|], after.venue);
  }

  lemma StepsPrepare(up: Orders.Upstream, w: World, req: Id, buyerId: Id, request: Orders.OrderRequest, c: Creating)
    requires req !in w.creating && request.eventId in w.eventVersion
    requires c == Creating(buyerId, request.eventId, w.eventVersion[request.eventId], request.paymentMethod, request.items, 0, false)
    requires Orders.PrepareAll(up, w.orders, w.venue, request.eventId, c.versionId, request.items, w.now).items.Ok?
    ensures Run(w, [CreateBegin(req, buyerId, request.eventId, request.paymentMethod, request.items)] + ItemSteps(req, request.items))
      == Working(w, req, c, Orders.PrepareAll(up, w.orders, w.venue, request.eventId, c.versionId, request.items, w.now).venue, |request.items|)
  {
    var begin := CreateBegin(req, buyerId, request.eventId, request.paymentMethod, request.items);
    Single(w, begin);
    BeginRuns(w, req, buyerId, request);
    assert request.items[..|request.items|] == request.items;
    ItemLoopRuns(up, w, req, c, |request.items|);
    RunConcat(w, [begin], ItemSteps(req, request.items));
  }

  lemma CreateStepsSnoc(req: Id, buyerId: Id, request: Orders.OrderRequest, order: Orders.Order)
    ensures CreateSteps(req, buyerId, request, order)
      == [CreateBegin(req, buyerId, request.eventId, request.paymentMethod, request.items)] + ItemSteps(req, request.items)
         + [Step.Create(req, SaveOrder(order.items, order.discount, order.promoId))]
  {
  }

  lemma StepsSave(up: Orders.Upstream, w: World, req: Id, buyerId: Id, request: Orders.OrderRequest, order: Orders.Order, venue: VenueState)
    requires req !in w.creating && request.eventId in w.eventVersion
    requires var prep := Orders.PrepareAll(up, w.orders, w.venue, request.eventId, w.eventVersion[request.eventId], request.items, w.now);
      prep.items.Ok? && prep.items.value == order.items && prep.venue == venue
    requires order == Orders.Order(buyerId, request.eventId, Orders.PENDING, Pricing.Sum(order.items), order.discount,
                                   Pricing.Sum(order.items) - order.discount, order.promoId, request.paymentMethod, order.items)
    ensures Run(w, CreateSteps(req, buyerId, request, order))
      == w.(orders := w.orders + [order], venue := venue, tokens := w.tokens + [TokensOf(request.items)])
  {
    hide *;
    var versionId := w.eventVersion[request.eventId];
    var c := Creating(buyerId, request.eventId, versionId, request.paymentMethod, request.items, 0, false);
    var begin := CreateBegin(req, buyerId, request.eventId, request.paymentMethod, request.items);
    var save := Step.Create(req, SaveOrder(order.items, order.discount, order.promoId));
    var ready := Working(w, req, c, venue, |request.items|);
    StepsPrepare(up, w, req, buyerId, request, c);
    AllItemsMatch(up, w.orders, w.venue, request.eventId, versionId, request.items, w.now);
    SaveRuns(w, req, c, venue, order.items, order.discount, order.promoId);
    CreateStepsSnoc(req, buyerId, request, order);
    Compose(w, [begin] + ItemSteps(req, request.items), ready, save, Next(ready, save));
  }

  lemma AllItemsMatch(up: Orders.Upstream, orders: seq<Orders.Order>, venue: VenueState, eventId: Id, versionId: Option<Id>,
                      inputs: seq<Orders.ItemInput>, now: int)
    requires Orders.PrepareAll(up, orders, venue, eventId, versionId, inputs, now).items.Ok?
    ensures Prepared(inputs, Orders.PrepareAll(up, orders, venue, eventId, versionId, inputs, now).items.value)
  {
    assert inputs[..|inputs|] == inputs;
    ItemsMatchInputs(up, orders, venue, eventId, versionId, inputs, |inputs|, now);
  }

  lemma Compose(w: World, steps: seq<Step>, mid: World, step: Step, after: World)
    requires Run(w, steps) == mid && Next(mid, step) == after
    ensures Run(w, steps + [step]) == after
  {
    Extend(w, steps, step);
  }

  // ----- orchestrateOrderConfirmation() -----

  function MarkSteps(req: Id, lost: set<nat>, n: nat): seq<Step> {
    if n == 0 then [] else MarkSteps(req, lost, n - 1) + [Orchestrate(req, Mark((n - 1) in lost))]
  }

  function Marked(w: World, req: Id, o: Id, versionId: Id, venue: VenueState, next: nat): World {
    w.(venue := venue, orchestrating := w.orchestrating[req := Marking(o, versionId, next)])
  }

  lemma OneMark(w: World, req: Id, o: Id, versionId: Id, venue: VenueState, i: nat, lost: bool)
    requires o < |w.orders| && i < |w.orders[o].items|
    ensures var seatId := w.orders[o].items[i].seatId;
      Next(Marked(w, req, o, versionId, venue, i), Orchestrate(req, Mark(lost)))
      == Marked(w, req, o, versionId,
                if seatId.None? || lost then venue else MarkSold(venue, SeatKey(versionId, seatId.value), Some(o)), i + 1)
  {
    assert w.orchestrating[req := Marking(o, versionId, i)][req := Marking(o, versionId, i + 1)]
        == w.orchestrating[req := Marking(o, versionId, i + 1)];
  }

  lemma {:induction false} MarksRun(w: World, req: Id, o: Id, versionId: Id, lost: set<nat>, n: nat)
    requires o < |w.orders| && n <= |w.orders[o].items|
    ensures Run(Marked(w, req, o, versionId, w.venue, 0), MarkSteps(req, lost, n))
      == Marked(w, req, o, versionId, Payments.SellSeats(w.venue, versionId, o, w.orders[o].items[..n], lost), n)
    decreases n
  {
    hide Next, MarkSold;
    if n > 0 {
      var items := w.orders[o].items;
      assert items[..n][..n - 1] == items[..n - 1];
      MarksRun(w, req, o, versionId, lost, n - 1);
      OneMark(w, req, o, versionId, Payments.SellSeats(w.venue, versionId, o, items[..n - 1], lost), n - 1, (n - 1) in lost);
      Extend(Marked(w, req, o, versionId, w.venue, 0), MarkSteps(req, lost, n - 1), Orchestrate(req, Mark((n - 1) in lost)));
    }
  }

  /** The machine's steps for an orchestration whose order and event calls get through. */
  function OrchestrationSteps(req: Id, lost: set<nat>, n: nat): seq<Step> {
    [Orchestrate(req, Confirm(true, true)), Orchestrate(req, FetchOrder(false))] + [Orchestrate(req, FetchOrderEvent(false))]
    + MarkSteps(req, lost, n) + [Orchestrate(req, Mark(false))]
  }

  function At(w: World, req: Id, t: Orchestration): World {
    w.(orchestrating := w.orchestrating[req := t])
  }

  lemma Confirms(w: World, req: Id, o: Id)
    requires req in w.orchestrating && w.orchestrating[req] == ToConfirm(o) && Orders.Confirm(w.orders, o).1.Ok?
    ensures Next(w, Orchestrate(req, Confirm(true, true))) == At(w.(orders := Orders.Confirm(w.orders, o).0), req, ToFetchOrder(o))
  {
  }

  lemma FetchesOrder(w: World, req: Id, o: Id)
    ensures Next(At(w, req, ToFetchOrder(o)), Orchestrate(req, FetchOrder(false))) == At(w, req, ToFetchEvent(o))
  {
    assert w.orchestrating[req := ToFetchOrder(o)][req := ToFetchEvent(o)] == w.orchestrating[req := ToFetchEvent(o)];
  }

  lemma FetchesEvent(w: World, req: Id, o: Id, versionId: Id)
    requires o < |w.orders| && Version(w, w.orders[o].eventId) == Some(versionId)
    ensures Next(At(w, req, ToFetchEvent(o)), Orchestrate(req, FetchOrderEvent(false))) == Marked(w, req, o, versionId, w.venue, 0)
  {
    assert w.orchestrating[req := ToFetchEvent(o)][req := Marking(o, versionId, 0)] == w.orchestrating[req := Marking(o, versionId, 0)];
  }

  lemma ConfirmRuns(w: World, req: Id, o: Id, versionId: Id)
    requires req in w.orchestrating && w.orchestrating[req] == ToConfirm(o)
    requires Orders.Confirm(w.orders, o).1.Ok? && Version(w, w.orders[o].eventId) == Some(versionId)
    ensures Run(w, [Orchestrate(req, Confirm(true, true)), Orchestrate(req, FetchOrder(false))] + [Orchestrate(req, FetchOrderEvent(false))])
      == Marked(w.(orders := Orders.Confirm(w.orders, o).0), req, o, versionId, w.venue, 0)
  {
    var confirm, order, event := Orchestrate(req, Confirm(true, true)), Orchestrate(req, FetchOrder(false)), Orchestrate(req, FetchOrderEvent(false));
    var confirmed := w.(orders := Orders.Confirm(w.orders, o).0);
    Confirms(w, req, o);
    FetchesOrder(confirmed, req, o);
    FetchesEvent(confirmed, req, o, versionId);
    Pair(w, [], confirm, order);
    SameRun(w, [] + [confirm, order], [confirm, order]);
    Extend(w, [confirm, order], event);
  }

  lemma LastMark(w: World, req: Id, o: Id, versionId: Id, venue: VenueState)
    requires o < |w.orders|
    ensures Next(Marked(w, req, o, versionId, venue, |w.orders[o].items|), Orchestrate(req, Mark(false)))
      == w.(venue := venue, orchestrating := w.orchestrating - {req})
  {
    assert w.orchestrating[req := Marking(o, versionId, |w.orders[o].items|)] - {req} == w.orchestrating - {req};
  }

  /** An orchestration nobody interrupts confirms the order and sells exactly the seats whose calls
      get through; when none is lost, every seat of the order is sold to it or was sold before. */
  lemma OrchestrationRefines(w: World, req: Id, o: Id, versionId: Id, lost: set<nat>)
    requires req in w.orchestrating && w.orchestrating[req] == ToConfirm(o)
    requires Orders.Confirm(w.orders, o).1.Ok? && Version(w, w.orders[o].eventId) == Some(versionId)
    ensures var after := Run(w, OrchestrationSteps(req, lost, |w.orders[o].items|));
      && after == w.(orders := Orders.Confirm(w.orders, o).0, orchestrating := w.orchestrating - {req},
                     venue := Payments.SellSeats(w.venue, versionId, o, w.orders[o].items, lost))
      && (lost == {} ==> forall i :: 0 <= i < |w.orders[o].items| && w.orders[o].items[i].seatId.Some? ==>
            SeatKey(versionId, w.orders[o].items[i].seatId.value) in after.venue.sold)
      && (forall key :: key in w.venue.sold ==> key in after.venue.sold && after.venue.sold[key] == w.venue.sold[key])
  {
    var items := w.orders[o].items;
    var confirmed := w.(orders := Orders.Confirm(w.orders, o).0);
    assert confirmed.orders[o].items == items && items[..|items|] == items;
    var first := [Orchestrate(req, Confirm(true, true)), Orchestrate(req, FetchOrder(false))] + [Orchestrate(req, FetchOrderEvent(false))];
    ConfirmRuns(w, req, o, versionId);
    RunConcat(w, first, MarkSteps(req, lost, |items|));
    MarksRun(confirmed, req, o, versionId, lost, |items|);
    Extend(w, first + MarkSteps(req, lost, |items|), Orchestrate(req, Mark(false)));
    LastMark(confirmed, req, o, versionId, Payments.SellSeats(w.venue, versionId, o, items, lost));
    Payments.SellSeatsExactly(w.venue, versionId, o, items, lost);
  }
}
