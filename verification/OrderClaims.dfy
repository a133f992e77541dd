/** What create() and cancel() do to the venue's holds, seat by seat. */
module OrderClaims {
  import opened Common
  import opened Pricing
  import opened Orders
  import Venue

  predicate Wants(inputs: seq<ItemInput>, versionId: Id, key: Venue.SeatKey) {
    key.versionId == versionId && exists j :: 0 <= j < |inputs| && inputs[j].seatId == Some(key.seatId)
  }

  /** The input's seat was held by its token and unsold, and is now held until the order TTL has run. */
  ghost predicate ClaimedFor(before: Venue.VenueState, after: Venue.VenueState, versionId: Id, input: ItemInput, now: int) {
    && input.seatId.Some? && input.holderToken.Some?
    && var key := Venue.SeatKey(versionId, input.seatId.value);
       && Venue.Get(before.holds, key, now) == input.holderToken && key !in before.sold
       && key in after.holds && after.holds[key] == Venue.Hold(input.holderToken.value, now + Venue.ORDER_HOLD_TTL_SECONDS)
  }

  /** No hold changes hands, is lost or is won; only wanted seats are stretched. */
  ghost predicate OnlyStretched(before: Venue.VenueState, after: Venue.VenueState, versionId: Id, inputs: seq<ItemInput>, now: int) {
    && after.sold == before.sold
    && (forall key :: Venue.Get(after.holds, key, now) == Venue.Get(before.holds, key, now))
    && (forall key :: !Wants(inputs, versionId, key) ==> (key in after.holds <==> key in before.holds))
    && (forall key :: !Wants(inputs, versionId, key) && key in before.holds ==> after.holds[key] == before.holds[key])
  }

  lemma ItemClaimsItsSeat(up: Upstream, orders: seq<Order>, prep: Prep, eventId: Id, versionId: Id, input: ItemInput, now: int)
    requires prep.items.Ok?
    ensures var after := PrepareItem(up, orders, prep, eventId, Some(versionId), input, now);
      && OnlyStretched(prep.venue, after.venue, versionId, [input], now)
      && (after.items.Ok? ==> ClaimedFor(prep.venue, after.venue, versionId, input, now))
  {
    if input.seatId.Some? { assert Wants([input], versionId, Venue.SeatKey(versionId, [input][0].seatId.value)); }
  }

  lemma StretchesCompose(a: Venue.VenueState, b: Venue.VenueState, c: Venue.VenueState, versionId: Id, inputs: seq<ItemInput>, now: int)
    requires inputs != []
    requires OnlyStretched(a, b, versionId, inputs[..|inputs| - 1], now) && OnlyStretched(b, c, versionId, [inputs[|inputs| - 1]], now)
    ensures OnlyStretched(a, c, versionId, inputs, now)
  {
    forall key ensures Wants(inputs[..|inputs| - 1], versionId, key) || Wants([inputs[|inputs| - 1]], versionId, key) ==>
      Wants(inputs, versionId, key)
    {
      WantsMore(inputs, versionId, key);
    }
  }

  lemma WantsMore(inputs: seq<ItemInput>, versionId: Id, key: Venue.SeatKey)
    requires inputs != []
    ensures Wants(inputs[..|inputs| - 1], versionId, key) ==> Wants(inputs, versionId, key)
    ensures Wants([inputs[|inputs| - 1]], versionId, key) ==> Wants(inputs, versionId, key)
  {
    var most := inputs[..|inputs| - 1];
    if j :| 0 <= j < |most| && most[j].seatId == Some(key.seatId) { assert inputs[j] == most[j]; }
  }

  /** All items of `inputs` are claimed, and the prepared items name their seats. */
  ghost predicate AllClaimed(before: Venue.VenueState, prep: Prep, versionId: Id, inputs: seq<ItemInput>, now: int)
    requires prep.items.Ok?
  {
    && |prep.items.value| == |inputs|
    && forall j :: 0 <= j < |inputs| ==>
         ClaimedFor(before, prep.venue, versionId, inputs[j], now) && prep.items.value[j].seatId == inputs[j].seatId
  }

  lemma LastClaimStands(venue: Venue.VenueState, before: Venue.VenueState, after: Venue.VenueState, versionId: Id,
                        most: seq<ItemInput>, last: ItemInput, now: int)
    requires OnlyStretched(venue, before, versionId, most, now) && ClaimedFor(before, after, versionId, last, now)
    ensures ClaimedFor(venue, after, versionId, last, now)
  {
  }

  lemma ItemAppended(up: Upstream, orders: seq<Order>, prep: Prep, eventId: Id, versionId: Id, input: ItemInput, now: int)
    requires prep.items.Ok? && PrepareItem(up, orders, prep, eventId, Some(versionId), input, now).items.Ok?
    ensures var items := PrepareItem(up, orders, prep, eventId, Some(versionId), input, now).items.value;
      |items| == |prep.items.value| + 1 && prep.items.value <= items && items[|items| - 1].seatId == input.seatId
  {
  }

  lemma OneMoreClaimed(up: Upstream, orders: seq<Order>, venue: Venue.VenueState, prep: Prep, eventId: Id, versionId: Id,
                       inputs: seq<ItemInput>, now: int)
    requires inputs != [] && prep.items.Ok? && OnlyStretched(venue, prep.venue, versionId, inputs[..|inputs| - 1], now)
    requires AllClaimed(venue, prep, versionId, inputs[..|inputs| - 1], now)
    requires PrepareItem(up, orders, prep, eventId, Some(versionId), inputs[|inputs| - 1], now).items.Ok?
    ensures AllClaimed(venue, PrepareItem(up, orders, prep, eventId, Some(versionId), inputs[|inputs| - 1], now), versionId, inputs, now)
  {
    hide PrepareItem, ClaimedFor, OnlyStretched;
    var most, last := inputs[..|inputs| - 1], inputs[|inputs| - 1];
    var after := PrepareItem(up, orders, prep, eventId, Some(versionId), last, now);
    ItemClaimsItsSeat(up, orders, prep, eventId, versionId, last, now);
    ItemAppended(up, orders, prep, eventId, versionId, last, now);
    LastClaimStands(venue, prep.venue, after.venue, versionId, most, last, now);
    forall j | 0 <= j < |most|
      ensures ClaimedFor(venue, after.venue, versionId, inputs[j], now) && after.items.value[j].seatId == inputs[j].seatId
    {
      assert inputs[j] == most[j] && after.items.value[j] == prep.items.value[j];
      ClaimStands(venue, prep.venue, after.venue, versionId, most[j], last, now);
    }
  }

  lemma {:induction false} PreparedSeatsAreClaimed(up: Upstream, orders: seq<Order>, venue: Venue.VenueState, eventId: Id, versionId: Id,
                                                   inputs: seq<ItemInput>, now: int)
    ensures var prep := PrepareAll(up, orders, venue, eventId, Some(versionId), inputs, now);
      OnlyStretched(venue, prep.venue, versionId, inputs, now) && (prep.items.Ok? ==> AllClaimed(venue, prep, versionId, inputs, now))
    decreases |inputs|
  {
    if inputs != [] {
      var most, last := inputs[..|inputs| - 1], inputs[|inputs| - 1];
      var before := PrepareAll(up, orders, venue, eventId, Some(versionId), most, now);
      PreparedSeatsAreClaimed(up, orders, venue, eventId, versionId, most, now);
      if before.items.Err? {
        SameIsStretched(before.venue, versionId, last, now);
        StretchesCompose(venue, before.venue, before.venue, versionId, inputs, now);
      } else {
        var after := PrepareItem(up, orders, before, eventId, Some(versionId), last, now);
        ItemClaimsItsSeat(up, orders, before, eventId, versionId, last, now);
        StretchesCompose(venue, before.venue, after.venue, versionId, inputs, now);
        if after.items.Ok? { OneMoreClaimed(up, orders, venue, before, eventId, versionId, inputs, now); }
      }
    }
  }

  lemma SameIsStretched(venue: Venue.VenueState, versionId: Id, input: ItemInput, now: int)
    ensures OnlyStretched(venue, venue, versionId, [input], now)
  {
  }

  /** A later item on the same seat can only be the same token's, and stretches to the same time. */
  lemma ClaimStands(venue: Venue.VenueState, before: Venue.VenueState, after: Venue.VenueState, versionId: Id,
                    earlier: ItemInput, last: ItemInput, now: int)
    requires ClaimedFor(venue, before, versionId, earlier, now) && ClaimedFor(before, after, versionId, last, now)
    requires OnlyStretched(before, after, versionId, [last], now)
    ensures ClaimedFor(venue, after, versionId, earlier, now)
  {
    var key := Venue.SeatKey(versionId, earlier.seatId.value);
    assert Venue.Get(after.holds, key, now) == Venue.Get(before.holds, key, now) == earlier.holderToken;
    if last.seatId != earlier.seatId { assert !Wants([last], versionId, key); }
  }

  /** After a create() with a seat map every ordered seat is held by the buyer's own token for the whole
      order TTL and reads HELD_BY_ME; whatever the outcome, no hold changes hands. */
  lemma CreateClaimsItsSeats(up: Upstream, shop: Shop, buyerId: Id, request: OrderRequest, now: int, versionId: Id)
    requires request.eventId in up.events && up.events[request.eventId].seatMapVersionId == Some(versionId)
    ensures var (after, reply) := Create(up, shop, buyerId, request, now);
      && OnlyStretched(shop.venue, after.venue, versionId, request.items, now)
      && (reply.Ok? ==>
            && reply.value < |after.orders| && |after.orders[reply.value].items| == |request.items|
            && forall j :: 0 <= j < |request.items| ==>
                 && ClaimedFor(shop.venue, after.venue, versionId, request.items[j], now)
                 && after.orders[reply.value].items[j].seatId == request.items[j].seatId
                 && Venue.StatusOf(after.venue, Venue.SeatKey(versionId, request.items[j].seatId.value), request.items[j].holderToken, now)
                    == Venue.HELD_BY_ME)
  {
    PreparedSeatsAreClaimed(up, shop.orders, shop.venue, request.eventId, versionId, request.items, now);
  }

  /** A seat of one of the items. */
  predicate SeatOf(items: seq<OrderItem>, versionId: Id, key: Venue.SeatKey) {
    key.versionId == versionId && exists i :: 0 <= i < |items| && items[i].seatId == Some(key.seatId)
  }

  lemma {:induction false} FreesExactly(venue: Venue.VenueState, versionId: Id, items: seq<OrderItem>)
    ensures var after := FreeSeats(venue, versionId, items);
      && after.sold == venue.sold
      && (forall key :: key in after.holds <==> key in venue.holds && !SeatOf(items, versionId, key))
      && (forall key :: key in after.holds ==> after.holds[key] == venue.holds[key])
    decreases |items|
  {
    if items != [] {
      var most, last := items[..|items| - 1], items[|items| - 1];
      FreesExactly(venue, versionId, most);
      forall key ensures SeatOf(items, versionId, key) <==>
        SeatOf(most, versionId, key) || (key.versionId == versionId && last.seatId == Some(key.seatId))
      {
        if SeatOf(most, versionId, key) {
          var i :| 0 <= i < |most| && most[i].seatId == Some(key.seatId);
          assert items[i] == most[i];
        }
        if i :| 0 <= i < |items| && key.versionId == versionId && items[i].seatId == Some(key.seatId) && i < |most| {
          assert most[i] == items[i];
        }
        if key.versionId == versionId && last.seatId == Some(key.seatId) { assert items[|items| - 1].seatId == Some(key.seatId); }
      }
    }
  }

  /** A successful cancel() ends the order and frees exactly its own seats; every other order, hold
      and sold row stays. */
  lemma CancelFreesExactly(up: Upstream, shop: Shop, id: Id, caller: Id, isAdmin: bool, versionId: Id)
    requires Cancel(up, shop, id, caller, isAdmin).1.Ok?
    requires shop.orders[id].eventId in up.events && up.events[shop.orders[id].eventId].seatMapVersionId == Some(versionId)
    ensures var after := Cancel(up, shop, id, caller, isAdmin).0;
      && after.orders == shop.orders[id := shop.orders[id].(status := CANCELLED)]
      && after.venue.sold == shop.venue.sold
      && (forall key :: key in after.venue.holds <==> key in shop.venue.holds && !SeatOf(shop.orders[id].items, versionId, key))
      && (forall key :: key in after.venue.holds ==> after.venue.holds[key] == shop.venue.holds[key])
  {
    FreesExactly(shop.venue, versionId, shop.orders[id].items);
  }
}
