/** Seat exclusivity: when no two PENDING or CONFIRMED orders can share a seat. The code promises
    it only under three conditions on the run, which `Allowed` states step by step. */
module ProtocolExclusivity {
  import opened Common
  import opened Venue
  import opened Protocol
  import opened ProtocolSafety
  import opened ProtocolClaims
  import opened Pricing
  import Orders
  import ProtocolRuns
  import Payments

  // ----- Frames -----

  /** No seat counts that did not count before, and those that still do keep their version. */
  ghost predicate FewerItems(w: World, n: World) {
    && |n.orders| == |w.orders| && n.tokens == w.tokens && n.venue.sold == w.venue.sold
    && (forall o :: 0 <= o < |w.orders| ==>
          n.orders[o].items == w.orders[o].items && n.orders[o].eventId == w.orders[o].eventId
          && (Live(n.orders[o].status) ==> Live(w.orders[o].status)))
    && forall o: Id, i: nat :: Counts(n, o, i) ==>
         Counts(w, o, i) && Version(n, n.orders[o].eventId) == Version(w, w.orders[o].eventId)
  }

  lemma FewerRows(w: World, n: World)
    requires FewerItems(w, n) && ShapesOk(w) && TokensOnce(w) && SoldToOwner(w) && Exclusive(w)
    ensures ShapesOk(n) && TokensOnce(n) && SoldToOwner(n) && Exclusive(n)
  {
    forall o: Id, i: nat | Counts(n, o, i) ensures Counts(w, o, i) && ItemKey(n, o, i) == ItemKey(w, o, i) {}
    forall o: Id, i: nat | LiveSeat(n, o, i) ensures LiveSeat(w, o, i) && ItemKey(n, o, i) == ItemKey(w, o, i) { assert Counts(n, o, i); }
    forall o: Id, i: nat, t | Behind(n, o, i, t) ensures Behind(w, o, i, t) {}
  }

  lemma OwnersStay(w: World, n: World)
    requires SoldFromOwner(w) && n.venue.sold == w.venue.sold
    requires forall o: Id, i: nat, key :: OwnsRow(w, o, i, key) ==> LiveSeat(n, o, i) && ItemKey(n, o, i) == key
    ensures SoldFromOwner(n)
  {
    forall key | key in n.venue.sold ensures exists o: Id, i: nat :: OwnsRow(n, o, i, key) {
      var o: Id, i: nat :| OwnsRow(w, o, i, key);
      assert OwnsRow(n, o, i, key);
    }
  }

  /** The items that still claim their seat still hold it. */
  lemma ItemsStayHeld(w: World, n: World)
    requires ItemsHeld(w) && FewerItems(w, n)
    requires forall o: Id, i: nat :: ItemClaims(n, o, i) ==> ItemClaims(w, o, i)
    requires forall o: Id, i: nat, t :: ItemClaims(w, o, i) && Held(w, ItemKey(w, o, i), t) ==> Held(n, ItemKey(w, o, i), t)
    ensures ItemsHeld(n)
  {
    forall o: Id, i: nat | ItemClaims(n, o, i) ensures exists t :: TokenAt(n.tokens, o, i, t) && Held(n, ItemKey(n, o, i), t) {
      assert Counts(n, o, i) && ItemKey(n, o, i) == ItemKey(w, o, i);
      var t :| TokenAt(w.tokens, o, i, t) && Held(w, ItemKey(w, o, i), t);
    }
  }

  /** Same items, releases, sold rows and versions, and as live as before. */
  ghost predicate SameItems(w: World, n: World) {
    && |n.orders| == |w.orders| && n.tokens == w.tokens && n.releasing == w.releasing && n.venue.sold == w.venue.sold
    && n.eventVersion == w.eventVersion
    && forall o :: 0 <= o < |w.orders| ==>
         && n.orders[o].items == w.orders[o].items && n.orders[o].eventId == w.orders[o].eventId
         && Live(n.orders[o].status) == Live(w.orders[o].status)
  }

  lemma SameIsFewer(w: World, n: World)
    requires SameItems(w, n)
    ensures FewerItems(w, n) && forall o: Id, i: nat :: ItemClaims(n, o, i) ==> ItemClaims(w, o, i)
    ensures forall o: Id, i: nat :: LiveSeat(w, o, i) ==> LiveSeat(n, o, i) && ItemKey(n, o, i) == ItemKey(w, o, i)
  {
    forall o: Id, i: nat | Seated(n, o, i) ensures Seated(w, o, i) && ItemKey(n, o, i) == ItemKey(w, o, i) {}
  }

  lemma SameItemsKeep(w: World, n: World)
    requires ShapesOk(w) && TokensOnce(w) && SoldToOwner(w) && SoldFromOwner(w) && Exclusive(w) && SameItems(w, n)
    ensures ShapesOk(n) && TokensOnce(n) && SoldToOwner(n) && SoldFromOwner(n) && Exclusive(n)
  {
    hide *;
    SameIsFewer(w, n);
    FewerRows(w, n);
    SameOwners(w, n);
  }

  lemma SameOwners(w: World, n: World)
    requires SoldFromOwner(w) && SameItems(w, n)
    ensures SoldFromOwner(n)
  {
    SameIsFewer(w, n);
    OwnersStay(w, n);
  }

  lemma RequestsStay(w: World, n: World)
    requires RequestsHeld(w) && n.creating == w.creating && n.tokens == w.tokens && n.venue == w.venue && n.now == w.now
    ensures RequestsHeld(n)
  {
    forall req: Id, j: nat | RequestClaims(n, req, j) ensures Held(n, ClaimKey(n.creating[req], j), ReservedToken(n, req, j)) {
      assert RequestClaims(w, req, j);
    }
  }

  lemma SameHolds(w: World, n: World)
    requires ItemsHeld(w) && SameItems(w, n) && n.venue == w.venue && n.now == w.now
    ensures ItemsHeld(n)
  {
    SameIsFewer(w, n);
    ItemsStayHeld(w, n);
  }

  // ----- Time and the buyers' calls: the claims stay, so do their holds -----

  /** Only the clock and the holds differ, and every claimed hold is still live. */
  ghost predicate HoldsSide(w: World, n: World) {
    && n == w.(now := n.now, venue := n.venue) && n.venue.sold == w.venue.sold && Consistent(n.venue)
    && forall key, t :: Claimed(w, key) && Held(w, key, t) ==> Held(n, key, t)
  }

  lemma ClaimsStayHeld(w: World, n: World)
    requires ItemsHeld(w) && RequestsHeld(w) && HoldsSide(w, n)
    ensures ItemsHeld(n) && RequestsHeld(n)
  {
    SameIsFewer(w, n);
    forall o: Id, i: nat, t | ItemClaims(w, o, i) && Held(w, ItemKey(w, o, i), t) ensures Held(n, ItemKey(w, o, i), t) {
      assert Claimed(w, ItemKey(w, o, i));
    }
    ItemsStayHeld(w, n);
    forall req: Id, j: nat | RequestClaims(n, req, j) ensures Held(n, ClaimKey(n.creating[req], j), ReservedToken(n, req, j)) {
      assert RequestClaims(w, req, j);
      assert Claimed(w, ClaimKey(w.creating[req], j));
    }
  }

  lemma SameVersions(w: World, n: World)
    requires VersionsOk(w) && n == w.(now := n.now, venue := n.venue)
    ensures VersionsOk(n)
  {
  }

  lemma HoldsSideKeeps(w: World, n: World)
    requires Secure(w) && HoldsSide(w, n)
    ensures Secure(n)
  {
    hide ShapesOk, TokensOnce, VersionsOk, ItemsHeld, RequestsHeld, SoldToOwner, SoldFromOwner, Exclusive, Consistent;
    ClaimsStayHeld(w, n);
    SameItemsKeep(w, n);
    SameVersions(w, n);
  }

  lemma TickSide(w: World, now: int)
    requires Consistent(w.venue) && Allowed(w, Tick(now))
    ensures HoldsSide(w, Next(w, Tick(now)))
  {
  }

  lemma BuyerSide(w: World, call: BuyerCall)
    requires Consistent(w.venue) && Allowed(w, Buyer(call))
    ensures HoldsSide(w, BuyerStep(w, call))
  {
    var n := BuyerStep(w, call);
    match call
    case BuyerHold(key, token) =>
    case BuyerRenew(key, token) =>
    case BuyerRelease(key, token) =>
  }

  // ----- Requests: what a create() in flight does before it saves -----

  /** Only the requests differ; anything newly reserved is held by its own token. */
  ghost predicate RequestSide(w: World, n: World) {
    && n == w.(creating := n.creating)
    && (forall req :: req in n.creating ==>
          var c := n.creating[req];
          && c.versionId == Version(n, c.eventId) && c.done <= |c.inputs|
          && forall j: nat :: j < c.done && c.inputs[j].seatId.Some? ==> Claimable(c, j))
    && (forall req: Id, j: nat :: Reserved(n, req, j) ==>
          || (Reserved(w, req, j) && ReservedToken(w, req, j) == ReservedToken(n, req, j)
              && ClaimKey(w.creating[req], j) == ClaimKey(n.creating[req], j))
          || Held(n, ClaimKey(n.creating[req], j), ReservedToken(n, req, j)))
  }

  lemma RequestSideKeeps(w: World, n: World)
    requires Secure(w) && RequestSide(w, n)
    ensures Secure(n)
  {
    SameItemsKeep(w, n);
    SameHolds(w, n);
    hide ShapesOk, TokensOnce, ItemsHeld, SoldToOwner, SoldFromOwner, Exclusive, Consistent;
    forall req: Id, j: nat | RequestClaims(n, req, j) ensures Held(n, ClaimKey(n.creating[req], j), ReservedToken(n, req, j)) {
      if Reserved(w, req, j) && ReservedToken(w, req, j) == ReservedToken(n, req, j) { assert RequestClaims(w, req, j); }
    }
  }

  lemma BeginKeeps(w: World, step: Step)
    requires Secure(w) && step.CreateBegin?
    ensures Secure(Next(w, step))
  {
    RequestSideKeeps(w, Next(w, step));
  }

  lemma RenewSide(w: World, key: SeatKey, token: Token)
    requires Consistent(w.venue)
    ensures var (venue, reply) := ReserveForOrder(w.venue, key, token, w.now);
      HoldsSide(w, w.(venue := venue)) && (reply.Ok? ==> Held(w.(venue := venue), key, token))
  {
  }

  lemma DropRequestSide(w: World, req: Id)
    requires VersionsOk(w)
    ensures RequestSide(w, w.(creating := w.creating - {req}))
  {
  }

  lemma AdvanceSide(w: World, req: Id, c: Creating)
    requires VersionsOk(w) && req in w.creating && w.creating[req] == c && c.done < |c.inputs| && Claimable(c, c.done)
    requires Held(w, ClaimKey(c, c.done), c.inputs[c.done].holderToken.value)
    ensures RequestSide(w, w.(creating := w.creating[req := c.(done := c.done + 1, checked := false)]))
  {
  }

  lemma Claims(w: World, mid: World, req: Id, c: Creating)
    requires Secure(w) && HoldsSide(w, mid)
    requires req in mid.creating && mid.creating[req] == c && c.done < |c.inputs| && Claimable(c, c.done)
    requires Held(mid, ClaimKey(c, c.done), c.inputs[c.done].holderToken.value)
    ensures Secure(mid.(creating := mid.creating[req := c.(done := c.done + 1, checked := false)]))
  {
    HoldsSideKeeps(w, mid);
    AdvanceSide(mid, req, c);
    RequestSideKeeps(mid, mid.(creating := mid.creating[req := c.(done := c.done + 1, checked := false)]));
  }

  lemma ReserveKeeps(w: World, req: Id)
    requires Secure(w) && req in w.creating
    ensures Secure(CreateStep(w, req, ReserveSeat, w.creating[req]))
  {
    hide ShapesOk, TokensOnce, VersionsOk, ItemsHeld, RequestsHeld, SoldToOwner, SoldFromOwner, Exclusive;
    hide HoldsSide, RequestSide, Held, RenewHold;
    var c := w.creating[req];
    if c.done < |c.inputs| && Claimable(c, c.done) && c.checked {
      var key, token := ClaimKey(c, c.done), c.inputs[c.done].holderToken.value;
      var (venue, reply) := ReserveForOrder(w.venue, key, token, w.now);
      if reply.Ok? {
        RenewSide(w, key, token);
        Claims(w, w.(venue := venue), req, c);
      } else {
        DropRequestSide(w, req);
        RequestSideKeeps(w, w.(creating := w.creating - {req}));
      }
    }
  }

  lemma TouchSide(w: World, req: Id, c: Creating)
    requires VersionsOk(w) && req in w.creating
    requires c == w.creating[req].(done := c.done, checked := c.checked) && c.done <= |c.inputs|
    requires forall j: nat :: j < c.done ==> j < w.creating[req].done || c.inputs[j].seatId.None?
    ensures RequestSide(w, w.(creating := w.creating[req := c]))
  {
    var n := w.(creating := w.creating[req := c]);
    forall r: Id, j: nat | Reserved(n, r, j) ensures Reserved(w, r, j) {}
  }

  lemma SameRequests(w: World)
    requires VersionsOk(w)
    ensures RequestSide(w, w)
  {
  }

  lemma PrepareSide(w: World, req: Id, move: CreateMove)
    requires VersionsOk(w) && req in w.creating && !move.SaveOrder? && !move.ReserveSeat?
    ensures RequestSide(w, CreateStep(w, req, move, w.creating[req]))
  {
    var c := w.creating[req];
    SameRequests(w);
    DropRequestSide(w, req);
    TouchSide(w, req, c.(checked := true));
    if c.done < |c.inputs| && c.inputs[c.done].seatId.None? { TouchSide(w, req, c.(done := c.done + 1)); }
  }

  lemma PrepareKeeps(w: World, req: Id, move: CreateMove)
    requires Secure(w) && req in w.creating && !move.SaveOrder?
    ensures Secure(CreateStep(w, req, move, w.creating[req]))
  {
    if move.ReserveSeat? {
      ReserveKeeps(w, req);
    } else {
      PrepareSide(w, req, move);
      RequestSideKeeps(w, CreateStep(w, req, move, w.creating[req]));
    }
  }

  // ----- Events and payments -----

  lemma EditVersions(w: World, eventId: Id, versionId: Option<Id>)
    requires VersionsOk(w) && Allowed(w, EditEvent(eventId, versionId))
    ensures VersionsOk(Next(w, EditEvent(eventId, versionId)))
  {
    hide LiveSeat;
    var n := Next(w, EditEvent(eventId, versionId));
    assert forall e: Id :: e != eventId ==> Version(n, e) == Version(w, e);
  }

  /** Only orders of the event change their version, and no seat of theirs counts. */
  lemma EditSide(w: World, eventId: Id, versionId: Option<Id>)
    requires Allowed(w, EditEvent(eventId, versionId))
    ensures var n := Next(w, EditEvent(eventId, versionId));
      && FewerItems(w, n) && (forall o: Id, i: nat :: ItemClaims(n, o, i) ==> ItemClaims(w, o, i))
      && forall o: Id, i: nat :: LiveSeat(w, o, i) ==> LiveSeat(n, o, i) && ItemKey(n, o, i) == ItemKey(w, o, i)
  {
    var n := Next(w, EditEvent(eventId, versionId));
    assert forall e: Id :: e != eventId || Version(w, eventId) == versionId ==> Version(n, e) == Version(w, e);
    forall o: Id, i: nat | Counts(n, o, i)
      ensures Counts(w, o, i) && Version(n, n.orders[o].eventId) == Version(w, w.orders[o].eventId)
    {
      if Live(w.orders[o].status) { assert LiveSeat(w, o, i); }
    }
    forall o: Id, i: nat | ItemClaims(n, o, i) ensures ItemClaims(w, o, i) { assert Counts(n, o, i); }
  }

  lemma EditKeeps(w: World, eventId: Id, versionId: Option<Id>)
    requires Secure(w) && Allowed(w, EditEvent(eventId, versionId))
    ensures Secure(Next(w, EditEvent(eventId, versionId)))
  {
    var n := Next(w, EditEvent(eventId, versionId));
    hide ShapesOk, TokensOnce, VersionsOk, ItemsHeld, RequestsHeld, SoldToOwner, SoldFromOwner, Exclusive, Consistent, Allowed, FewerItems;
    hide ItemClaims, LiveSeat;
    EditVersions(w, eventId, versionId);
    EditSide(w, eventId, versionId);
    FewerRows(w, n);
    LiveOwnersStay(w, n);
    ItemsStayHeld(w, n);
    RequestsStay(w, n);
  }

  lemma LiveOwnersStay(w: World, n: World)
    requires SoldFromOwner(w) && n.venue.sold == w.venue.sold
    requires forall o: Id, i: nat :: LiveSeat(w, o, i) ==> LiveSeat(n, o, i) && ItemKey(n, o, i) == ItemKey(w, o, i)
    ensures SoldFromOwner(n)
  {
    OwnersStay(w, n);
  }

  /** Only payments and orchestrations differ, and any Marking knows the event's version. */
  lemma PaymentSideKeeps(w: World, n: World)
    requires Secure(w)
    requires SameItems(w, n) && n.creating == w.creating && n.venue == w.venue && n.now == w.now
    requires forall req :: req in n.orchestrating && n.orchestrating[req].Marking? ==>
      || (req in w.orchestrating && n.orchestrating[req] == w.orchestrating[req])
      || (n.orchestrating[req].orderId < |w.orders|
          && Version(w, w.orders[n.orchestrating[req].orderId].eventId) == Some(n.orchestrating[req].versionId))
    ensures Secure(n)
  {
    SameItemsKeep(w, n);
    SameHolds(w, n);
    RequestsStay(w, n);
    hide ShapesOk, TokensOnce, ItemsHeld, RequestsHeld, SoldToOwner, SoldFromOwner, Exclusive, Consistent;
    assert VersionsOk(n);
  }

  // ----- Cancelled orders give their seats back -----

  lemma PendingUnsold(w: World, o: Id, i: nat)
    requires LedgerOk(w) && SoldToOwner(w) && Seated(w, o, i) && w.orders[o].status == Orders.PENDING
    ensures ItemKey(w, o, i) !in w.venue.sold
  {
    assert LiveSeat(w, o, i);
  }

  lemma CancelSide(w: World, o: Id)
    requires o < |w.orders| && w.orders[o].status == Orders.PENDING
    ensures FewerItems(w, Next(w, CancelSave(o)))
  {
  }

  /** No sold row is in the name of a PENDING order. */
  lemma CancelledOwners(w: World, o: Id, n: World)
    requires LedgerOk(w) && SoldFromOwner(w)
    requires o < |w.orders| && w.orders[o].status == Orders.PENDING && n == Next(w, CancelSave(o))
    ensures SoldFromOwner(n)
  {
    forall p: Id, i: nat, key | OwnsRow(w, p, i, key) ensures LiveSeat(n, p, i) && ItemKey(n, p, i) == key {
      assert Confirmed(w, p);
    }
    OwnersStay(w, n);
  }

  lemma CancelVersions(w: World, o: Id)
    requires VersionsOk(w) && o < |w.orders| && w.orders[o].status == Orders.PENDING
    ensures VersionsOk(Next(w, CancelSave(o)))
  {
  }

  lemma CancelKeeps(w: World, o: Id)
    requires Inv(w) && Secure(w)
    requires o < |w.orders| && w.orders[o].status == Orders.PENDING
    ensures Secure(Next(w, CancelSave(o)))
  {
    hide ShapesOk, TokensOnce, ItemsHeld, RequestsHeld, SoldToOwner, SoldFromOwner, Exclusive, Consistent, FewerItems;
    hide LedgerOk, OrdersOk;
    var n := Next(w, CancelSave(o));
    CancelSide(w, o);
    CancelVersions(w, o);
    hide VersionsOk;
    FewerRows(w, n);
    CancelledOwners(w, o, n);
    CancelledItemsHeld(w, o, n);
    RequestsStay(w, n);
  }

  lemma CancelledItemsHeld(w: World, o: Id, n: World)
    requires LedgerOk(w) && ItemsHeld(w) && SoldToOwner(w)
    requires o < |w.orders| && w.orders[o].status == Orders.PENDING && n == Next(w, CancelSave(o))
    ensures ItemsHeld(n)
  {
    forall p: Id, i: nat | ItemClaims(n, p, i) ensures exists t :: TokenAt(n.tokens, p, i, t) && Held(n, ItemKey(n, p, i), t) {
      assert Seated(w, p, i) && ItemKey(n, p, i) == ItemKey(w, p, i);
      if p == o { PendingUnsold(w, o, i); }
      assert ItemClaims(w, p, i);
      hide LedgerOk, SoldToOwner;
      var t :| TokenAt(w.tokens, p, i, t) && Held(w, ItemKey(w, p, i), t);
      assert Held(n, ItemKey(n, p, i), t);
    }
  }

  /** The releases still owed only shrink. */
  lemma OwingLessKeeps(w: World, n: World)
    requires Secure(w)
    requires n == w.(releasing := n.releasing) && VersionsOk(n)
    requires forall o: Id, i: nat :: Seated(w, o, i) && OwesRelease(n, o, i) ==> OwesRelease(w, o, i)
    ensures Secure(n)
  {
    OwingSide(w, n);
    hide ShapesOk, TokensOnce, VersionsOk, ItemsHeld, RequestsHeld, SoldToOwner, SoldFromOwner, Exclusive, Consistent, FewerItems;
    FewerRows(w, n);
    LiveOwnersStay(w, n);
    ItemsStayHeld(w, n);
    RequestsStay(w, n);
  }

  lemma OwingSide(w: World, n: World)
    requires n == w.(releasing := n.releasing)
    requires forall o: Id, i: nat :: Seated(w, o, i) && OwesRelease(n, o, i) ==> OwesRelease(w, o, i)
    ensures FewerItems(w, n) && (forall o: Id, i: nat :: ItemClaims(n, o, i) ==> ItemClaims(w, o, i))
    ensures forall o: Id, i: nat :: LiveSeat(w, o, i) ==> LiveSeat(n, o, i) && ItemKey(n, o, i) == ItemKey(w, o, i)
  {
    forall o: Id, i: nat | Seated(n, o, i) ensures Seated(w, o, i) && ItemKey(n, o, i) == ItemKey(w, o, i) {}
  }

  /** Nobody else relies on the hold behind a claiming item's seat. */
  lemma SoleClaim(w: World, o: Id, i: nat)
    requires Linked(w) && Backed(w) && ItemClaims(w, o, i)
    ensures forall p: Id, j: nat :: ItemClaims(w, p, j) && ItemKey(w, p, j) == ItemKey(w, o, i) ==> p == o && j == i
    ensures forall req: Id, j: nat :: RequestClaims(w, req, j) ==> ClaimKey(w.creating[req], j) != ItemKey(w, o, i)
  {
    var t :| TokenAt(w.tokens, o, i, t) && Held(w, ItemKey(w, o, i), t);
    forall p: Id, j: nat | ItemClaims(w, p, j) && ItemKey(w, p, j) == ItemKey(w, o, i) ensures p == o && j == i {
      var u :| TokenAt(w.tokens, p, j, u) && Held(w, ItemKey(w, p, j), u);
      assert Behind(w, p, j, u) && Behind(w, o, i, t);
    }
    assert Saved(w.tokens, t);
  }

  lemma FreeingSide(w: World, key: SeatKey)
    requires Consistent(w.venue) && !Claimed(w, key)
    ensures HoldsSide(w, w.(venue := ReleaseForOrder(w.venue, key)))
  {
  }

  function Arrived(w: World, o: Id, i: nat): World
    requires o in w.releasing && w.releasing[o].Sending?
  {
    w.(releasing := w.releasing[o := w.releasing[o].(todo := w.releasing[o].todo - {i})])
  }

  lemma ReleasedIsUnclaimed(w: World, o: Id, i: nat)
    requires OrdersOk(w) && Linked(w) && Backed(w) && Seated(w, o, i)
    requires o in w.releasing && w.releasing[o].Sending? && i in w.releasing[o].todo
    ensures !Claimed(Arrived(w, o, i), ItemKey(w, o, i))
  {
    var owing := Arrived(w, o, i);
    SoleClaim(w, o, i);
    forall p: Id, j: nat | ItemClaims(owing, p, j) ensures ItemKey(owing, p, j) != ItemKey(w, o, i) {
      assert ItemClaims(w, p, j) && ItemKey(owing, p, j) == ItemKey(w, p, j);
      assert p != o || j != i;
    }
    forall req: Id, j: nat | RequestClaims(owing, req, j) ensures ClaimKey(owing.creating[req], j) != ItemKey(w, o, i) {
      assert RequestClaims(w, req, j);
    }
  }

  lemma ArrivesKeeps(w: World, o: Id, i: nat)
    requires OrdersOk(w) && Secure(w) && Seated(w, o, i)
    requires o in w.releasing && w.releasing[o].Sending? && i in w.releasing[o].todo
    ensures Secure(Arrived(w, o, i).(venue := ReleaseForOrder(w.venue, ItemKey(w, o, i))))
  {
    var owing := Arrived(w, o, i);
    ReleasedIsUnclaimed(w, o, i);
    ShrinkingKeeps(w, o, owing.releasing[o]);
    FreeingSide(owing, ItemKey(w, o, i));
    HoldsSideKeeps(owing, owing.(venue := ReleaseForOrder(w.venue, ItemKey(w, o, i))));
  }

  lemma ShrinkingKeeps(w: World, o: Id, r: Releasing)
    requires Secure(w) && o in w.releasing && r.Sending?
    requires w.releasing[o].Sending? ==> r.versionId == w.releasing[o].versionId && r.todo <= w.releasing[o].todo
    requires o < |w.orders| ==> Version(w, w.orders[o].eventId) == Some(r.versionId)
    ensures Secure(w.(releasing := w.releasing[o := r]))
  {
    var n := w.(releasing := w.releasing[o := r]);
    assert VersionsOk(n);
    OwingLessKeeps(w, n);
  }

  lemma ReleaseKeeps(w: World, o: Id, move: ReleaseMove)
    requires OrdersOk(w) && Secure(w) && o in w.releasing && o < |w.orders|
    ensures Secure(ReleaseStep(w, o, move, w.releasing[o]))
  {
    hide OrdersOk, ShapesOk, TokensOnce, ItemsHeld, RequestsHeld, SoldToOwner, SoldFromOwner, Exclusive, Consistent;
    var r := w.releasing[o];
    match move
    case Arrives(i) =>
      if r.Sending? && i in r.todo && Seated(w, o, i) { ArrivesKeeps(w, o, i); }
    case Lost(i) =>
      if r.Sending? { ShrinkingKeeps(w, o, r.(todo := r.todo - {i})); }
    case FetchEvent(lost) =>
      if r.AwaitingEvent? {
        var version := Version(w, w.orders[o].eventId);
        if lost || version.None? { OwingLessKeeps(w, w.(releasing := w.releasing - {o})); }
        else { ShrinkingKeeps(w, o, Sending(version.value, SeatedItems(w.orders[o].items))); }
      }
  }

  // ----- Confirmation and sale -----

  lemma ConfirmSide(w: World, req: Id, o: Id, arrives: bool, answers: bool)
    requires Secure(w)
    ensures Secure(ConfirmStep(w, req, o, arrives, answers))
  {
    var n := ConfirmStep(w, req, o, arrives, answers);
    assert SameItems(w, n);
    PaymentSideKeeps(w, n);
  }

  lemma ProceedSide(w: World, req: Id, next: Option<Orchestration>)
    requires Secure(w)
    requires next.Some? && next.value.Marking? ==>
      next.value.orderId < |w.orders| && Version(w, w.orders[next.value.orderId].eventId) == Some(next.value.versionId)
    ensures Secure(Proceed(w, req, next))
  {
    PaymentSideKeeps(w, Proceed(w, req, next));
  }

  /** Selling a confirmed order's own seat: the hold goes, the ledger takes its place. */
  lemma SellKeeps(w: World, o: Id, i: nat)
    requires Inv(w) && Secure(w) && Confirmed(w, o) && Seated(w, o, i)
    ensures Secure(w.(venue := MarkSold(w.venue, ItemKey(w, o, i), Some(o))))
  {
    var key := ItemKey(w, o, i);
    var n := w.(venue := MarkSold(w.venue, key, Some(o)));
    if key !in w.venue.sold {
      OnlyVenueChanges(w, n);
      hide ShapesOk, TokensOnce, VersionsOk, ItemsHeld, RequestsHeld, SoldToOwner, SoldFromOwner, Exclusive, Consistent, MarkSold;
      SoldClaims(w, n, o, i);
      SoldOwners(w, n, o, i);
      NewRowIsOwned(w, n, o, i);
    }
  }

  lemma OnlyVenueChanges(w: World, n: World)
    requires Linked(w) && Exclusive(w) && n == w.(venue := n.venue)
    ensures Linked(n) && Exclusive(n)
  {
    forall p: Id, j: nat | Seated(n, p, j) ensures Seated(w, p, j) && ItemKey(n, p, j) == ItemKey(w, p, j) {}
    forall p: Id, j: nat | LiveSeat(n, p, j) ensures LiveSeat(w, p, j) {}
    forall p: Id, j: nat, t | Behind(n, p, j, t) ensures Behind(w, p, j, t) {}
    forall p: Id, j: nat | Counts(n, p, j) ensures Counts(w, p, j) {}
  }

  lemma SoldClaims(w: World, n: World, o: Id, i: nat)
    requires OrdersOk(w) && Linked(w) && Backed(w) && Confirmed(w, o) && ItemClaims(w, o, i)
    requires n == w.(venue := MarkSold(w.venue, ItemKey(w, o, i), Some(o))) && ItemKey(w, o, i) !in w.venue.sold
    ensures ItemsHeld(n) && RequestsHeld(n)
  {
    SoleClaim(w, o, i);
    forall p: Id, j: nat | ItemClaims(n, p, j) ensures exists t :: TokenAt(n.tokens, p, j, t) && Held(n, ItemKey(n, p, j), t) {
      assert ItemClaims(w, p, j) && ItemKey(n, p, j) == ItemKey(w, p, j);
      var t :| TokenAt(w.tokens, p, j, t) && Held(w, ItemKey(w, p, j), t);
      assert p != o || j != i;
      assert Held(n, ItemKey(n, p, j), t);
    }
    forall req: Id, j: nat | RequestClaims(n, req, j) ensures Held(n, ClaimKey(n.creating[req], j), ReservedToken(n, req, j)) {
      assert RequestClaims(w, req, j);
    }
  }

  lemma SoldOwners(w: World, n: World, o: Id, i: nat)
    requires Linked(w) && Backed(w) && ItemClaims(w, o, i)
    requires n == w.(venue := MarkSold(w.venue, ItemKey(w, o, i), Some(o))) && ItemKey(w, o, i) !in w.venue.sold
    ensures Consistent(n.venue) && SoldToOwner(n)
  {
    SoleClaim(w, o, i);
    hide ShapesOk, TokensOnce, VersionsOk, ItemsHeld, RequestsHeld, SoldFromOwner;
    forall p: Id, j: nat | LiveSeat(n, p, j) && ItemKey(n, p, j) in n.venue.sold ensures n.venue.sold[ItemKey(n, p, j)] == Some(p) {
      assert LiveSeat(w, p, j) && ItemKey(n, p, j) == ItemKey(w, p, j);
      if ItemKey(w, p, j) !in w.venue.sold { assert ItemClaims(w, p, j); }
    }
  }

  lemma NewRowIsOwned(w: World, n: World, o: Id, i: nat)
    requires SoldFromOwner(w) && Confirmed(w, o) && Seated(w, o, i)
    requires n == w.(venue := MarkSold(w.venue, ItemKey(w, o, i), Some(o))) && ItemKey(w, o, i) !in w.venue.sold
    ensures SoldFromOwner(n)
  {
    var sold := ItemKey(w, o, i);
    forall key | key in n.venue.sold ensures exists p: Id, j: nat :: OwnsRow(n, p, j, key) {
      if key == sold {
        assert OwnsRow(n, o, i, key);
      } else {
        var p: Id, j: nat :| OwnsRow(w, p, j, key);
        assert OwnsRow(n, p, j, key);
      }
    }
  }

  lemma MarkSells(w: World, req: Id, o: Id, versionId: Id, i: nat, lost: bool)
    requires Inv(w) && Secure(w)
    requires req in w.orchestrating && w.orchestrating[req] == Marking(o, versionId, i)
    ensures Secure(OrchestrateStep(w, req, Mark(lost), Marking(o, versionId, i)))
  {
    if o >= |w.orders| || i >= |w.orders[o].items| {
      ProceedSide(w, req, None);
    } else {
      MarkIsSale(w, req, lost, o, versionId, i);
      ProceedSide(w, req, Some(Marking(o, versionId, i + 1)));
      if !lost && Seated(w, o, i) {
        var mid := Proceed(w, req, Some(Marking(o, versionId, i + 1)));
        MovedOnKeeps(w, req, o, versionId, i, mid);
        assert Seated(mid, o, i) && ItemKey(mid, o, i) == SeatKey(versionId, w.orders[o].items[i].seatId.value);
        SellKeeps(mid, o, i);
      }
    }
  }

  lemma OrchestrateSells(w: World, req: Id, move: OrchestrationMove)
    requires Inv(w) && Secure(w) && req in w.orchestrating
    ensures Secure(OrchestrateStep(w, req, move, w.orchestrating[req]))
  {
    hide Inv, Secure;
    match (move, w.orchestrating[req])
    case (Confirm(arrives, answers), ToConfirm(o)) => ConfirmSide(w, req, o, arrives, answers);
    case (FetchOrder(lost), ToFetchOrder(o)) => ProceedSide(w, req, if lost then None else Some(ToFetchEvent(o)));
    case (FetchOrderEvent(lost), ToFetchEvent(o)) =>
      var versionId := if o < |w.orders| then Version(w, w.orders[o].eventId) else None;
      ProceedSide(w, req, if lost || versionId.None? then None else Some(Marking(o, versionId.value, 0)));
    case (Mark(lost), Marking(o, versionId, i)) => MarkSells(w, req, o, versionId, i, lost);
    case _ =>
  }

  // ----- Saving an order: its reserved seats become its claims -----

  ghost predicate Saves(w: World, req: Id, n: World) {
    && req in w.creating && TokensFree(w, w.creating[req])
    && (var c := w.creating[req];
        && c.done == |c.inputs| && |n.orders| == |w.orders| + 1 && n.orders[..|w.orders|] == w.orders
        && n == w.(orders := n.orders, tokens := w.tokens + [TokensOf(c.inputs)], creating := w.creating - {req})
        && var saved := n.orders[|w.orders|];
           saved.status == Orders.PENDING && saved.eventId == c.eventId && Prepared(c.inputs, saved.items))
  }

  lemma SavedItem(w: World, req: Id, n: World, i: nat)
    requires Linked(w) && Backed(w) && Saves(w, req, n) && Seated(n, |w.orders|, i)
    ensures Reserved(w, req, i) && InputToken(w.creating[req], i, ReservedToken(w, req, i))
    ensures forall o: Id, k: nat :: !Behind(w, o, k, ReservedToken(w, req, i))
    ensures ItemKey(n, |w.orders|, i) == ClaimKey(w.creating[req], i)
    ensures Version(n, n.orders[|w.orders|].eventId).Some?
    ensures TokenAt(n.tokens, |w.orders|, i, ReservedToken(w, req, i)) && Held(n, ItemKey(n, |w.orders|, i), ReservedToken(w, req, i))
    ensures ItemKey(n, |w.orders|, i) !in n.venue.sold
  {
    var c := w.creating[req];
    hide TokensOnce, ItemsHeld, SoldToOwner, SoldFromOwner;
    assert c.inputs[i].seatId.Some?;
    assert Reserved(w, req, i);
    var t := ReservedToken(w, req, i);
    assert InputToken(c, i, t);
    if !Saved(w.tokens, t) { assert RequestClaims(w, req, i); }
    assert Held(w, ClaimKey(c, i), t);
  }

  lemma OldItem(w: World, req: Id, n: World, o: Id, i: nat)
    requires Linked(w) && Saves(w, req, n) && o < |w.orders| && Seated(n, o, i)
    ensures Seated(w, o, i) && ItemKey(n, o, i) == ItemKey(w, o, i) && n.orders[o] == w.orders[o]
    ensures forall t :: TokenAt(n.tokens, o, i, t) <==> TokenAt(w.tokens, o, i, t)
  {
    assert n.orders[o] == n.orders[..|w.orders|][o];
    assert n.tokens[o] == w.tokens[o];
  }

  lemma SaveShapes(w: World, req: Id, n: World)
    requires Inv(w) && Linked(w) && Backed(w) && Saves(w, req, n)
    ensures ShapesOk(n)
  {
    forall o: Id, i: nat | Counts(n, o, i)
      ensures i < |n.tokens[o]| && n.tokens[o][i].Some? && Version(n, n.orders[o].eventId).Some?
    {
      if o < |w.orders| { OldItem(w, req, n, o, i); assert Counts(w, o, i); } else { SavedItem(w, req, n, i); }
    }
  }

  /** A token behind a seat after the save: behind the same seat before it, or the request's own. */
  lemma BehindAfterSave(w: World, req: Id, n: World, o: Id, i: nat, t: Token)
    requires Linked(w) && Backed(w) && Saves(w, req, n) && Behind(n, o, i, t)
    ensures if o < |w.orders| then Behind(w, o, i, t)
            else InputToken(w.creating[req], i, t) && forall p: Id, k: nat :: !Behind(w, p, k, t)
  {
    if o < |w.orders| { OldItem(w, req, n, o, i); } else { SavedItem(w, req, n, i); }
  }

  lemma SaveTokens(w: World, req: Id, n: World)
    requires Linked(w) && Backed(w) && Saves(w, req, n)
    ensures TokensOnce(n)
  {
    forall o: Id, i: nat, p: Id, j: nat, t: Token | Behind(n, o, i, t) && Behind(n, p, j, t) ensures o == p && i == j {
      BehindAfterSave(w, req, n, o, i, t);
      BehindAfterSave(w, req, n, p, j, t);
    }
  }

  lemma SaveLinks(w: World, req: Id, n: World)
    requires Inv(w) && Linked(w) && Backed(w) && Saves(w, req, n)
    ensures Linked(n)
  {
    hide Inv, Backed, Saves;
    SaveShapes(w, req, n);
    SaveTokens(w, req, n);
    SaveVersions(w, req, n);
  }

  lemma SaveVersions(w: World, req: Id, n: World)
    requires Inv(w) && VersionsOk(w) && Saves(w, req, n)
    ensures VersionsOk(n)
  {
    assert forall o :: 0 <= o < |w.orders| ==> n.orders[o] == n.orders[..|w.orders|][o];
  }

  lemma SaveClaims(w: World, req: Id, n: World)
    requires Inv(w) && Linked(w) && Backed(w) && Saves(w, req, n)
    ensures ItemsHeld(n) && SoldToOwner(n)
  {
    var added := |w.orders|;
    forall o: Id, i: nat | ItemClaims(n, o, i) ensures exists t :: TokenAt(n.tokens, o, i, t) && Held(n, ItemKey(n, o, i), t) {
      if o < added {
        OldItem(w, req, n, o, i);
        assert ItemClaims(w, o, i);
        var t :| TokenAt(w.tokens, o, i, t) && Held(w, ItemKey(w, o, i), t);
        assert Held(n, ItemKey(n, o, i), t);
      } else {
        SavedItem(w, req, n, i);
      }
    }
    forall o: Id, i: nat | LiveSeat(n, o, i) && ItemKey(n, o, i) in n.venue.sold ensures n.venue.sold[ItemKey(n, o, i)] == Some(o) {
      if o < added { OldItem(w, req, n, o, i); assert LiveSeat(w, o, i); } else { SavedItem(w, req, n, i); }
    }
  }

  lemma SaveOwners(w: World, req: Id, n: World)
    requires SoldFromOwner(w) && Saves(w, req, n)
    ensures SoldFromOwner(n)
  {
    forall o: Id, i: nat, key | OwnsRow(w, o, i, key) ensures LiveSeat(n, o, i) && ItemKey(n, o, i) == key {
      assert n.orders[o] == n.orders[..|w.orders|][o];
    }
    OwnersStay(w, n);
  }

  lemma SaveRequests(w: World, req: Id, n: World)
    requires RequestsHeld(w) && Saves(w, req, n)
    ensures RequestsHeld(n)
  {
    forall r: Id, j: nat | RequestClaims(n, r, j) ensures Held(n, ClaimKey(n.creating[r], j), ReservedToken(n, r, j)) {
      assert Reserved(w, r, j) && w.creating[r] == n.creating[r];
      var t := ReservedToken(w, r, j);
      if Saved(w.tokens, t) {
        var o: Id, i: nat :| TokenAt(w.tokens, o, i, t);
        assert TokenAt(n.tokens, o, i, t);
      }
      assert RequestClaims(w, r, j);
    }
  }

  /** A new item against an older one: the older one's hold or sale would show. */
  lemma NewAgainstOld(w: World, req: Id, n: World, o: Id, i: nat, j: nat)
    requires Linked(w) && Backed(w) && Saves(w, req, n)
    requires o < |w.orders| && LiveSeat(n, o, i) && LiveSeat(n, |w.orders|, j)
    ensures ItemKey(n, o, i) != ItemKey(n, |w.orders|, j)
  {
    OldItem(w, req, n, o, i);
    SavedItem(w, req, n, j);
    if ItemKey(w, o, i) !in w.venue.sold {
      assert ItemClaims(w, o, i);
      var t :| TokenAt(w.tokens, o, i, t) && Held(w, ItemKey(w, o, i), t);
      assert Behind(w, o, i, t);
    }
  }

  lemma NewAgainstNew(w: World, req: Id, n: World, i: nat, j: nat)
    requires Linked(w) && Backed(w) && Saves(w, req, n)
    requires LiveSeat(n, |w.orders|, i) && LiveSeat(n, |w.orders|, j) && ItemKey(n, |w.orders|, i) == ItemKey(n, |w.orders|, j)
    ensures i == j
  {
    SavedItem(w, req, n, i);
    SavedItem(w, req, n, j);
  }

  lemma SaveKeeps(w: World, req: Id, n: World)
    requires Inv(w) && Secure(w) && Saves(w, req, n)
    ensures Secure(n)
  {
    SaveLinks(w, req, n);
    SaveClaims(w, req, n);
    SaveRequests(w, req, n);
    SaveOwners(w, req, n);
    var added := |w.orders|;
    forall o: Id, i: nat, p: Id, j: nat | LiveSeat(n, o, i) && LiveSeat(n, p, j) && ItemKey(n, o, i) == ItemKey(n, p, j)
      ensures o == p && i == j
    {
      if o < added && p < added {
        OldItem(w, req, n, o, i);
        OldItem(w, req, n, p, j);
        assert LiveSeat(w, o, i) && LiveSeat(w, p, j);
      } else if o < added { NewAgainstOld(w, req, n, o, i, j); }
      else if p < added { NewAgainstOld(w, req, n, p, j, i); }
      else { NewAgainstNew(w, req, n, i, j); }
    }
  }

  // ----- Every allowed step, and every allowed run -----

  lemma CreateKeeps(w: World, req: Id, move: CreateMove)
    requires Inv(w) && Secure(w) && req in w.creating && Allowed(w, Step.Create(req, move))
    ensures Secure(CreateStep(w, req, move, w.creating[req]))
  {
    var c := w.creating[req];
    if move.SaveOrder? {
      if c.done == |c.inputs| && Prepared(c.inputs, move.items) { SaveKeeps(w, req, CreateStep(w, req, move, c)); }
    } else {
      PrepareKeeps(w, req, move);
    }
  }

  lemma PaymentsKeep(w: World, step: Step)
    requires Secure(w) && (step.Pay? || step.Review? || step.PayFetchOrder?)
    ensures Secure(Next(w, step))
  {
    var n := Next(w, step);
    PaymentsTouch(w, step);
    PaymentSideKeeps(w, n);
  }

  /** Only payments and orchestrations differ, and no Marking is new. */
  ghost predicate PaymentsOnly(w: World, n: World) {
    && n == w.(paying := n.paying, store := n.store, approvals := n.approvals, orchestrating := n.orchestrating)
    && forall req :: req in n.orchestrating && n.orchestrating[req].Marking? ==>
         req in w.orchestrating && n.orchestrating[req] == w.orchestrating[req]
  }

  lemma ReviewTouches(w: World, req: Id, notice: Notice)
    ensures PaymentsOnly(w, ReviewStep(w, req, notice))
  {
    hide Reviewed;
  }

  lemma PayTouches(w: World, req: Id, move: PayMove, p: Paying)
    ensures PaymentsOnly(w, PayStep(w, req, move, p))
  {
    hide Payments.Initiate, Payments.SubmitProof;
  }

  lemma PaymentsTouch(w: World, step: Step)
    requires step.Pay? || step.Review? || step.PayFetchOrder?
    ensures PaymentsOnly(w, Next(w, step))
  {
    hide PayStep, ReviewStep;
    match step
    case Pay(req, move) => if req in w.paying { PayTouches(w, req, move, w.paying[req]); }
    case Review(req, notice) => ReviewTouches(w, req, notice);
    case _ =>
  }

  lemma StepKeepsExclusive(w: World, step: Step)
    requires ExInv(w) && Allowed(w, step)
    ensures ExInv(Next(w, step))
  {
    hide Allowed, HoldsSide, Consistent, Linked, ItemsHeld, RequestsHeld, SoldToOwner, SoldFromOwner, Exclusive;
    hide OrdersOk, LedgerOk, OrchestrationsOk, MethodsOk, ApprovalsOk, Forward;
    NextKeeps(w, step);
    match step
    case Tick(now) => TickSide(w, now); HoldsSideKeeps(w, Next(w, step));
    case EditEvent(eventId, versionId) => EditKeeps(w, eventId, versionId);
    case Buyer(call) => BuyerSide(w, call); HoldsSideKeeps(w, Next(w, step));
    case CreateBegin(req, buyerId, eventId, how, inputs) => BeginKeeps(w, step);
    case Create(req, move) => if req in w.creating { CreateKeeps(w, req, move); }
    case CancelSave(o) => if o < |w.orders| && w.orders[o].status == Orders.PENDING { CancelKeeps(w, o); }
    case Release(o, move) => if o in w.releasing && o < |w.orders| { ReleaseKeeps(w, o, move); }
    case Orchestrate(req, move) => if req in w.orchestrating { OrchestrateSells(w, req, move); }
    case _ => PaymentsKeep(w, step);
  }

  ghost predicate AllowedRun(w: World, steps: seq<Step>) {
    forall k :: 0 <= k < |steps| ==> Allowed(Run(w, steps[..k]), steps[k])
  }

  lemma AllowedConcat(w: World, first: seq<Step>, rest: seq<Step>)
    requires AllowedRun(w, first) && AllowedRun(Run(w, first), rest)
    ensures AllowedRun(w, first + rest)
  {
    hide Allowed, Next, Run;
    var all := first + rest;
    forall k | 0 <= k < |all| ensures Allowed(Run(w, all[..k]), all[k]) {
      CutConcat(first, rest, k);
      if k >= |first| { ProtocolRuns.RunConcat(w, first, rest[..k - |first|]); }
    }
  }

  lemma CutConcat(first: seq<Step>, rest: seq<Step>, k: nat)
    requires k < |first + rest|
    ensures if k < |first| then (first + rest)[..k] == first[..k] && (first + rest)[k] == first[k]
            else (first + rest)[..k] == first + rest[..k - |first|] && (first + rest)[k] == rest[k - |first|]
  {
  }

  lemma {:induction false} RunKeepsExclusive(w: World, steps: seq<Step>)
    requires ExInv(w) && AllowedRun(w, steps)
    ensures ExInv(Run(w, steps))
    decreases |steps|
  {
    if steps != [] {
      var most := steps[..|steps| - 1];
      forall k | 0 <= k < |most| ensures Allowed(Run(w, most[..k]), most[k]) { assert most[..k] == steps[..k]; }
      RunKeepsExclusive(w, most);
      StepKeepsExclusive(Run(w, most), steps[|steps| - 1]);
    }
  }

  lemma StartIsSecure(eventVersion: map<Id, Option<Id>>)
    ensures ExInv(Start(eventVersion))
  {
  }

  /** No two PENDING or CONFIRMED orders ever share a (version, seat), in any run of the three
      conditions, with any interleaving and any lost call; every seat of a live order is either
      held by the order's own token or sold to that order. */
  lemma SeatsAreExclusive(eventVersion: map<Id, Option<Id>>, steps: seq<Step>)
    requires AllowedRun(Start(eventVersion), steps)
    ensures var w := Run(Start(eventVersion), steps);
      && Exclusive(w)
      && forall o: Id, i: nat :: LiveSeat(w, o, i) ==>
           || (ItemKey(w, o, i) in w.venue.sold && w.venue.sold[ItemKey(w, o, i)] == Some(o))
           || exists t :: TokenAt(w.tokens, o, i, t) && Held(w, ItemKey(w, o, i), t)
  {
    StartIsSecure(eventVersion);
    hide Inv, Linked, Exclusive, RequestsHeld, Allowed;
    var w := Run(Start(eventVersion), steps);
    RunKeepsExclusive(Start(eventVersion), steps);
    forall o: Id, i: nat | LiveSeat(w, o, i) && ItemKey(w, o, i) !in w.venue.sold
      ensures exists t :: TokenAt(w.tokens, o, i, t) && Held(w, ItemKey(w, o, i), t)
    {
      assert ItemClaims(w, o, i);
    }
  }
}
