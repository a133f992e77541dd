/** The conditions of seat exclusivity are exact. What (H1), (H2) and (H3) rule out is precisely what
    makes some continuation of otherwise allowed steps sell a seat twice. */
module ProtocolNecessity {
  import opened Common
  import opened Venue
  import opened Protocol
  import opened ProtocolSafety
  import opened ProtocolRuns
  import opened ProtocolClaims
  import opened ProtocolExclusivity
  import opened ProtocolResale
  import Pricing
  import Orders

  ghost predicate StaysExclusive(w: World) {
    forall steps :: AllowedRun(w, steps) ==> Exclusive(Run(w, steps))
  }

  lemma KeptClaimsStayExclusive(w: World, step: Step)
    requires ExInv(w) && Allowed(w, step)
    ensures StaysExclusive(Next(w, step))
  {
    hide Inv, Linked, Backed, Exclusive, Allowed;
    StepKeepsExclusive(w, step);
    forall steps | AllowedRun(Next(w, step), steps) ensures Exclusive(Run(Next(w, step), steps)) {
      RunKeepsExclusive(Next(w, step), steps);
    }
  }

  lemma Breaks(w: World, steps: seq<Step>)
    requires AllowedRun(w, steps) && !Exclusive(Run(w, steps))
    ensures !StaysExclusive(w)
  {
  }

  lemma SharedNow(w: World, o: Id, i: nat, p: Id, j: nat)
    requires LiveSeat(w, o, i) && LiveSeat(w, p, j) && ItemKey(w, o, i) == ItemKey(w, p, j) && (o != p || i != j)
    ensures !StaysExclusive(w)
  {
    assert AllowedRun(w, []) && Run(w, []) == w;
  }

  // ----- (H2): time, and the buyers' releases -----

  /** The request has claimed all its seats and may be saved: its tokens are distinct and unsaved. */
  ghost predicate ReadyToSave(w: World, c: Creating) {
    && c.done == |c.inputs|
    && (forall j: nat, t :: InputToken(c, j, t) ==> !Saved(w.tokens, t))
    && (forall j: nat, k: nat, t :: InputToken(c, j, t) && InputToken(c, k, t) ==> j == k)
  }

  ghost predicate AllReady(w: World) {
    forall req :: req in w.creating ==> ReadyToSave(w, w.creating[req])
  }

  function PlainItems(inputs: seq<Orders.ItemInput>): seq<Pricing.OrderItem> {
    seq(|inputs|, j requires 0 <= j < |inputs| => Pricing.OrderItem(inputs[j].tierId, inputs[j].seatId, None, 0))
  }

  function SaveNow(w: World, req: Id): Step
    requires req in w.creating
  {
    Step.Create(req, SaveOrder(PlainItems(w.creating[req].inputs), 0, None))
  }

  /** Saving a ready request adds one PENDING order with its seats. */
  lemma ReadySaves(w: World, req: Id, j: nat)
    requires req in w.creating && ReadyToSave(w, w.creating[req]) && Reserved(w, req, j)
    requires w.creating[req].versionId == Version(w, w.creating[req].eventId)
    ensures AllowedRun(w, [SaveNow(w, req)]) && Run(w, [SaveNow(w, req)]) == Next(w, SaveNow(w, req))
    ensures var n := Next(w, SaveNow(w, req));
      && n.venue == w.venue && n.now == w.now && LiveSeat(n, |w.orders|, j)
      && ItemKey(n, |w.orders|, j) == ClaimKey(w.creating[req], j) && Version(n, n.orders[|w.orders|].eventId).Some?
  {
    Single(w, SaveNow(w, req));
    ReadyIsFree(w, req);
  }

  lemma ReadyIsFree(w: World, req: Id)
    requires req in w.creating && ReadyToSave(w, w.creating[req])
    ensures TokensFree(w, w.creating[req])
  {
    forall o: Id, i: nat, t | Behind(w, o, i, t) ensures Saved(w.tokens, t) {}
  }

  /** A world in which a claiming item's hold is gone. */
  lemma LostClaimBreaks(w: World, n: World, o: Id, i: nat)
    requires ExInv(w) && ItemClaims(w, o, i)
    requires n == w.(now := n.now, venue := n.venue) && n.venue.sold == w.venue.sold
    requires Get(n.venue.holds, ItemKey(w, o, i), n.now).None?
    ensures !StaysExclusive(n)
  {
    ClaimIsUnsold(w, o, i);
    hide ExInv, AllowedRun, Exclusive, StaysExclusive;
    assert ItemKey(n, o, i) == ItemKey(w, o, i) && Seated(n, o, i);
    var steps: seq<Step>;
    if Live(w.orders[o].status) { steps := FreeLiveSeatIsResold(n, o, i); } else { steps := FreeOwedSeatIsResold(n, o, i); }
    Breaks(n, steps);
  }

  lemma ClaimIsUnsold(w: World, o: Id, i: nat)
    requires ExInv(w) && ItemClaims(w, o, i)
    ensures ItemKey(w, o, i) !in w.venue.sold && Version(w, w.orders[o].eventId).Some?
    ensures o in w.releasing && w.releasing[o].Sending? ==> Version(w, w.orders[o].eventId) == Some(w.releasing[o].versionId)
    ensures exists t :: Behind(w, o, i, t) && Held(w, ItemKey(w, o, i), t)
  {
    hide Inv, RequestsHeld, SoldToOwner, SoldFromOwner, Exclusive, TokensOnce;
    var t :| TokenAt(w.tokens, o, i, t) && Held(w, ItemKey(w, o, i), t);
    assert Behind(w, o, i, t);
  }

  /** A free seat with a release still on its way: whoever orders it next loses the hold to that
      release, and the seat can be ordered once more. */
  lemma FreeOwedSeatIsResold(w: World, o: Id, i: nat) returns (steps: seq<Step>)
    requires Seated(w, o, i) && OwesRelease(w, o, i) && Version(w, w.orders[o].eventId).Some?
    requires w.releasing[o].Sending? ==> Version(w, w.orders[o].eventId) == Some(w.releasing[o].versionId)
    requires ItemKey(w, o, i) !in w.venue.sold && Get(w.venue.holds, ItemKey(w, o, i), w.now).None?
    ensures AllowedRun(w, steps) && !Exclusive(Run(w, steps))
  {
    hide AllowedRun, Exclusive, BehindNothing, Next, Run, Held, OrderSteps;
    var token := FreeSeatIsHeld(w, ItemKey(w, o, i));
    var hold := [Buyer(BuyerHold(ItemKey(w, o, i), token))];
    var held := Run(w, hold);
    var p := MakePurchase(held, o, i, token);
    OrderRuns(held, p);
    OrderIsAllowed(held, p);
    var ordered := Ordered(held, p);
    OrderedAgain(held, p, o, i);
    var rest := OwedSeatIsResold(ordered, o, i, |w.orders|, 0);
    AllowedConcat(held, OrderSteps(p), rest);
    Joined(held, OrderSteps(p), ordered, rest, Run(ordered, rest));
    AllowedConcat(w, hold, OrderSteps(p) + rest);
    Joined(w, hold, held, OrderSteps(p) + rest, Run(ordered, rest));
    steps := hold + (OrderSteps(p) + rest);
  }

  lemma OrderedAgain(w: World, p: Purchase, o: Id, i: nat)
    requires Seated(w, o, i) && KeyOf(p) == ItemKey(w, o, i)
    requires p.eventId in w.eventVersion && w.eventVersion[p.eventId] == Some(p.versionId)
    ensures var n := Ordered(w, p);
      && LiveSeat(n, |w.orders|, 0) && ItemKey(n, |w.orders|, 0) == KeyOf(p) && Version(n, n.orders[|w.orders|].eventId).Some?
      && Seated(n, o, i) && n.orders[o] == w.orders[o] && ItemKey(n, o, i) == KeyOf(p)
  {
  }

  /** A world in which the hold behind a ready request's seat is gone. */
  lemma LostRequestBreaks(w: World, n: World, req: Id, j: nat)
    requires ExInv(w) && RequestClaims(w, req, j) && ReadyToSave(w, w.creating[req])
    requires n == w.(now := n.now, venue := n.venue) && n.venue.sold == w.venue.sold
    requires Get(n.venue.holds, ClaimKey(w.creating[req], j), n.now).None?
    ensures !StaysExclusive(n)
  {
    RequestIsUnsold(w, req, j);
    hide ExInv, AllowedRun, Exclusive, StaysExclusive;
    ReadySaves(n, req, j);
    var save := [SaveNow(n, req)];
    var saved := Run(n, save);
    hide Next, Run;
    var rest := FreeLiveSeatIsResold(saved, |w.orders|, j);
    AllowedConcat(n, save, rest);
    Joined(n, save, saved, rest, Run(saved, rest));
    Breaks(n, save + rest);
  }

  lemma RequestIsUnsold(w: World, req: Id, j: nat)
    requires ExInv(w) && RequestClaims(w, req, j)
    ensures ClaimKey(w.creating[req], j) !in w.venue.sold
    ensures w.creating[req].versionId == Version(w, w.creating[req].eventId)
  {
    hide Inv, ItemsHeld, SoldToOwner, SoldFromOwner, Exclusive, TokensOnce;
  }

  /** A hold somebody relies on is gone. */
  lemma LostHoldBreaks(w: World, n: World, key: SeatKey)
    requires ExInv(w) && AllReady(w) && Claimed(w, key)
    requires n == w.(now := n.now, venue := n.venue) && n.venue.sold == w.venue.sold
    requires Get(n.venue.holds, key, n.now).None?
    ensures !StaysExclusive(n)
  {
    hide ExInv, StaysExclusive;
    if o: Id, i: nat :| ItemClaims(w, o, i) && ItemKey(w, o, i) == key {
      LostClaimBreaks(w, n, o, i);
    } else {
      var req: Id, j: nat :| RequestClaims(w, req, j) && ClaimKey(w.creating[req], j) == key;
      LostRequestBreaks(w, n, req, j);
    }
  }

  /** While every create() in flight has claimed its seats and is ready to be saved, time may pass
      exactly as far as no claimed hold lapses: up to there every allowed continuation is exclusive,
      beyond it some allowed continuation sells a seat twice. */
  lemma TimeMayPassExactly(w: World, now: int)
    requires ExInv(w) && AllReady(w) && w.now <= now
    ensures StaysExclusive(Next(w, Tick(now))) <==> Allowed(w, Tick(now))
  {
    hide ExInv, StaysExclusive, Claimed, AllReady;
    if Allowed(w, Tick(now)) {
      KeptClaimsStayExclusive(w, Tick(now));
    } else {
      var key :| key in w.venue.holds && Claimed(w, key) && now >= w.venue.holds[key].expiresAt;
      LostHoldBreaks(w, Next(w, Tick(now)), key);
    }
  }

  /** Under the same condition, a buyer's release is harmless exactly when it misses or nobody relies
      on the hold. */
  lemma ReleasesAreHarmlessExactly(w: World, key: SeatKey, token: Token)
    requires ExInv(w) && AllReady(w)
    ensures StaysExclusive(Next(w, Buyer(BuyerRelease(key, token)))) <==> (Held(w, key, token) ==> !Claimed(w, key))
  {
    hide ExInv, StaysExclusive, Claimed, AllReady;
    var step := Buyer(BuyerRelease(key, token));
    if Allowed(w, step) {
      KeptClaimsStayExclusive(w, step);
    } else {
      LostHoldBreaks(w, Next(w, step), key);
    }
  }

  // ----- (H1): the event's version -----

  /** Nothing of the version is held or sold yet. */
  ghost predicate NewVersion(w: World, versionId: Id) {
    forall key: SeatKey :: key.versionId == versionId ==> key !in w.venue.holds && key !in w.venue.sold
  }

  /** While no call that has read the event is in flight, it may move to a new version exactly when no
      live order of it has a seat: otherwise some allowed continuation sells such a seat twice. */
  lemma EditsAreHarmlessExactly(w: World, eventId: Id, versionId: Id)
    requires ExInv(w) && NoCallsAbout(w, eventId) && NewVersion(w, versionId) && Version(w, eventId) != Some(versionId)
    ensures StaysExclusive(Next(w, EditEvent(eventId, Some(versionId)))) <==> NoLiveSeats(w, eventId)
  {
    hide ExInv, StaysExclusive, NoCallsAbout;
    var step := EditEvent(eventId, Some(versionId));
    if NoLiveSeats(w, eventId) {
      KeptClaimsStayExclusive(w, step);
    } else {
      var n := Next(w, step);
      var o: Id, i: nat :| LiveSeat(w, o, i) && w.orders[o].eventId == eventId;
      assert LiveSeat(n, o, i) && ItemKey(n, o, i) == SeatKey(versionId, w.orders[o].items[i].seatId.value);
      var steps := FreeLiveSeatIsResold(n, o, i);
      Breaks(n, steps);
    }
  }

  // ----- (H3): the tokens of a saved order -----

  /** A token is drawn for one seat: wherever it stands or holds, it is that seat. */
  ghost predicate TokensNameSeats(w: World, c: Creating) {
    && (forall o: Id, i: nat, t, key :: Behind(w, o, i, t) && Held(w, key, t) ==> key == ItemKey(w, o, i))
    && (forall j: nat, t, key :: InputToken(c, j, t) && Held(w, key, t) && j < |c.inputs| && Claimable(c, j) ==> key == ClaimKey(c, j))
    && (forall o: Id, i: nat, j: nat, t :: Behind(w, o, i, t) && InputToken(c, j, t) && j < |c.inputs| && Claimable(c, j) ==>
          ItemKey(w, o, i) == ClaimKey(c, j))
    && (forall j: nat, k: nat, t ::
          InputToken(c, j, t) && InputToken(c, k, t) && j < |c.inputs| && k < |c.inputs| && Claimable(c, j) && Claimable(c, k) ==>
          ClaimKey(c, j) == ClaimKey(c, k))
  }

  /** The only create() in flight has claimed all its seats and is saved with these items. */
  ghost predicate LastSave(w: World, req: Id, items: seq<Pricing.OrderItem>) {
    && w.creating.Keys == {req} && w.creating[req].done == |w.creating[req].inputs|
    && Prepared(w.creating[req].inputs, items)
  }

  /** What the save adds at input `j`: a live seat, at the request's key, for its token. */
  lemma SavedSeat(w: World, req: Id, items: seq<Pricing.OrderItem>, discount: int, promoId: Option<Id>, j: nat, t: Token)
    requires VersionsOk(w) && LastSave(w, req, items) && InputToken(w.creating[req], j, t)
    ensures var c := w.creating[req];
      var n := Next(w, Step.Create(req, SaveOrder(items, discount, promoId)));
      && j < |c.inputs| && Claimable(c, j)
      && n == w.(orders := n.orders, tokens := n.tokens, creating := map[]) && |n.orders| == |w.orders| + 1 && w.orders <= n.orders
      && LiveSeat(n, |w.orders|, j) && ItemKey(n, |w.orders|, j) == ClaimKey(c, j) && Version(n, n.orders[|w.orders|].eventId).Some?
      && n.tokens == w.tokens + [TokensOf(c.inputs)]
  {
    var c := w.creating[req];
    assert c.inputs[j].seatId.Some?;
    assert w.creating - {req} == map[];
  }

  function Save(req: Id, items: seq<Pricing.OrderItem>, discount: int, promoId: Option<Id>): Step {
    Step.Create(req, SaveOrder(items, discount, promoId))
  }

  /** Older seats are as before. */
  lemma OldSeat(w: World, n: World, o: Id, i: nat)
    requires Seated(w, o, i) && w.orders <= n.orders && n.eventVersion == w.eventVersion
    ensures Seated(n, o, i) && n.orders[o] == w.orders[o] && ItemKey(n, o, i) == ItemKey(w, o, i)
  {
  }

  /** A seat that counts, at the key of the request's input `j`. */
  lemma CountedSeatBreaks(w: World, req: Id, items: seq<Pricing.OrderItem>, discount: int, promoId: Option<Id>, j: nat, t: Token, o: Id, i: nat)
    requires ExInv(w) && LastSave(w, req, items) && InputToken(w.creating[req], j, t) && Counts(w, o, i)
    requires j < |w.creating[req].inputs| && Claimable(w.creating[req], j) && ItemKey(w, o, i) == ClaimKey(w.creating[req], j)
    ensures !StaysExclusive(Next(w, Save(req, items, discount, promoId)))
  {
    if OwesRelease(w, o, i) { ClaimIsUnsold(w, o, i); }
    SavedSeat(w, req, items, discount, promoId, j, t);
    hide ExInv, StaysExclusive, LastSave, InputToken, AllowedRun, Exclusive;
    var n := Next(w, Save(req, items, discount, promoId));
    hide Next;
    OldSeat(w, n, o, i);
    if Live(w.orders[o].status) {
      SharedNow(n, o, i, |w.orders|, j);
    } else {
      var steps := OwedSeatIsResold(n, o, i, |w.orders|, j);
      Breaks(n, steps);
    }
  }

  lemma DoubledTokenBreaks(w: World, req: Id, items: seq<Pricing.OrderItem>, discount: int, promoId: Option<Id>, j: nat, k: nat, t: Token, u: Token)
    requires VersionsOk(w) && LastSave(w, req, items) && InputToken(w.creating[req], j, t) && InputToken(w.creating[req], k, u) && j != k
    requires var c := w.creating[req];
      j < |c.inputs| && k < |c.inputs| && Claimable(c, j) && Claimable(c, k) && ClaimKey(c, j) == ClaimKey(c, k)
    ensures !StaysExclusive(Next(w, Save(req, items, discount, promoId)))
  {
    SavedSeat(w, req, items, discount, promoId, j, t);
    SavedSeat(w, req, items, discount, promoId, k, u);
    hide StaysExclusive, LastSave, InputToken, VersionsOk;
    SharedNow(Next(w, Save(req, items, discount, promoId)), |w.orders|, j, |w.orders|, k);
  }

  /** After the save the holder's token stands behind nothing, if it did not before and is not the request's. */
  lemma StillBehindNothing(w: World, n: World, c: Creating, u: Token)
    requires |w.tokens| == |w.orders| && BehindNothing(w, u) && (forall k: nat :: !InputToken(c, k, u))
    requires w.orders <= n.orders && n.releasing == w.releasing && n.tokens == w.tokens + [TokensOf(c.inputs)]
    ensures BehindNothing(n, u)
  {
    forall o: Id, i: nat ensures !Behind(n, o, i, u) {
      if o < |w.orders| { assert !Behind(w, o, i, u); } else { assert !InputToken(c, i, u); }
    }
  }

  /** Another token holds the seat of the request's input `j`. */
  lemma StrangersSeatBreaks(w: World, req: Id, items: seq<Pricing.OrderItem>, discount: int, promoId: Option<Id>, j: nat, t: Token, u: Token)
    requires ExInv(w) && LastSave(w, req, items) && TokensNameSeats(w, w.creating[req]) && InputToken(w.creating[req], j, t) && t != u
    requires j < |w.creating[req].inputs| && Claimable(w.creating[req], j) && Held(w, ClaimKey(w.creating[req], j), u)
    ensures !StaysExclusive(Next(w, Save(req, items, discount, promoId)))
  {
    var c := w.creating[req];
    SavedSeat(w, req, items, discount, promoId, j, t);
    if o: Id, i: nat :| Behind(w, o, i, u) {
      CountedSeatBreaks(w, req, items, discount, promoId, j, t, o, i);
    } else if k: nat :| InputToken(c, k, u) {
      assert c.inputs[j].holderToken == Some(t) && c.inputs[k].holderToken == Some(u);
      DoubledTokenBreaks(w, req, items, discount, promoId, j, k, t, u);
    } else {
      HolderOrders(w, req, items, discount, promoId, j, t, u);
    }
  }

  lemma HolderOrders(w: World, req: Id, items: seq<Pricing.OrderItem>, discount: int, promoId: Option<Id>, j: nat, t: Token, u: Token)
    requires ExInv(w) && LastSave(w, req, items) && InputToken(w.creating[req], j, t)
    requires BehindNothing(w, u) && forall k: nat :: !InputToken(w.creating[req], k, u)
    requires j < |w.creating[req].inputs| && Claimable(w.creating[req], j) && Held(w, ClaimKey(w.creating[req], j), u)
    ensures !StaysExclusive(Next(w, Save(req, items, discount, promoId)))
  {
    SavedSeat(w, req, items, discount, promoId, j, t);
    var n := Next(w, Save(req, items, discount, promoId));
    StillBehindNothing(w, n, w.creating[req], u);
    assert ClaimKey(w.creating[req], j) !in w.venue.sold;
    hide ExInv, StaysExclusive, LastSave, InputToken, AllowedRun, Exclusive, BehindNothing, Next;
    var steps := HeldLiveSeatIsResold(n, |w.orders|, j, u);
    Breaks(n, steps);
  }

  /** The token of input `j` no longer holds its seat. */
  lemma LostTokenBreaks(w: World, req: Id, items: seq<Pricing.OrderItem>, discount: int, promoId: Option<Id>, j: nat, t: Token)
    requires ExInv(w) && LastSave(w, req, items) && TokensNameSeats(w, w.creating[req]) && InputToken(w.creating[req], j, t)
    requires j < |w.creating[req].inputs| && Claimable(w.creating[req], j) && !Held(w, ClaimKey(w.creating[req], j), t)
    ensures !StaysExclusive(Next(w, Save(req, items, discount, promoId)))
  {
    var key := ClaimKey(w.creating[req], j);
    if key in w.venue.sold {
      var o: Id, i: nat :| OwnsRow(w, o, i, key);
      CountedSeatBreaks(w, req, items, discount, promoId, j, t, o, i);
    } else if Get(w.venue.holds, key, w.now).None? {
      SavedSeat(w, req, items, discount, promoId, j, t);
      hide ExInv, StaysExclusive, LastSave, InputToken, AllowedRun, Exclusive;
      var n := Next(w, Save(req, items, discount, promoId));
      hide Next;
      var steps := FreeLiveSeatIsResold(n, |w.orders|, j);
      Breaks(n, steps);
    } else {
      StrangersSeatBreaks(w, req, items, discount, promoId, j, t, Get(w.venue.holds, key, w.now).value);
    }
  }

  /** With tokens drawn for one seat each, and no other create() in flight: a save keeps every allowed
      continuation exclusive exactly when its tokens are distinct, stand behind no seat that counts, and,
      where saved before, still hold their seats. Otherwise a seat is sold twice at once or later. */
  lemma SavesAreHarmlessExactly(w: World, req: Id, items: seq<Pricing.OrderItem>, discount: int, promoId: Option<Id>)
    requires ExInv(w) && LastSave(w, req, items) && TokensNameSeats(w, w.creating[req])
    ensures StaysExclusive(Next(w, Save(req, items, discount, promoId))) <==> TokensFree(w, w.creating[req])
  {
    hide ExInv, StaysExclusive, TokensNameSeats;
    var c := w.creating[req];
    if TokensFree(w, c) {
      KeptClaimsStayExclusive(w, Save(req, items, discount, promoId));
    } else {
      UnfreeTokensBreak(w, req, items, discount, promoId);
    }
  }

  lemma UnfreeTokensBreak(w: World, req: Id, items: seq<Pricing.OrderItem>, discount: int, promoId: Option<Id>)
    requires ExInv(w) && LastSave(w, req, items) && TokensNameSeats(w, w.creating[req]) && !TokensFree(w, w.creating[req])
    ensures !StaysExclusive(Next(w, Save(req, items, discount, promoId)))
  {
    var c := w.creating[req];
    if j: nat, t, o: Id, i: nat :| InputToken(c, j, t) && Behind(w, o, i, t) {
      SavedSeat(w, req, items, discount, promoId, j, t);
      CountedSeatBreaks(w, req, items, discount, promoId, j, t, o, i);
    } else if j: nat, k: nat, t :| InputToken(c, j, t) && InputToken(c, k, t) && j != k {
      SavedSeat(w, req, items, discount, promoId, j, t);
      SavedSeat(w, req, items, discount, promoId, k, t);
      DoubledTokenBreaks(w, req, items, discount, promoId, j, k, t, t);
    } else {
      var j: nat, t :| InputToken(c, j, t) && Saved(w.tokens, t) && j < |c.inputs| && Claimable(c, j) && !Held(w, ClaimKey(c, j), t);
      LostTokenBreaks(w, req, items, discount, promoId, j, t);
    }
  }
}
