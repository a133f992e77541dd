/** Who relies on which hold, the three conditions of seat exclusivity, and the invariant behind it. */
module ProtocolClaims {
  import opened Common
  import opened Venue
  import opened Protocol
  import opened ProtocolSafety
  import opened Pricing
  import Orders

  type TokenTable = seq<seq<Option<Token>>>

  predicate Live(status: Orders.OrderStatus) {
    status == Orders.PENDING || status == Orders.CONFIRMED
  }

  predicate Seated(w: World, o: Id, i: nat) {
    o < |w.orders| && i < |w.orders[o].items| && w.orders[o].items[i].seatId.Some?
  }

  function ItemKey(w: World, o: Id, i: nat): SeatKey
    requires Seated(w, o, i)
  {
    var version := Version(w, w.orders[o].eventId);
    SeatKey(if version.Some? then version.value else 0, w.orders[o].items[i].seatId.value)
  }

  predicate LiveSeat(w: World, o: Id, i: nat) {
    Seated(w, o, i) && Live(w.orders[o].status)
  }

  /** No two items of PENDING or CONFIRMED orders share a (version, seat). */
  ghost predicate Exclusive(w: World) {
    forall o: Id, i: nat, p: Id, j: nat ::
      LiveSeat(w, o, i) && LiveSeat(w, p, j) && ItemKey(w, o, i) == ItemKey(w, p, j) ==> o == p && i == j
  }

  predicate TokenAt(tokens: TokenTable, o: Id, i: nat, token: Token) {
    o < |tokens| && i < |tokens[o]| && tokens[o][i] == Some(token)
  }

  ghost predicate Saved(tokens: TokenTable, token: Token) {
    exists o: Id, i: nat :: TokenAt(tokens, o, i, token)
  }

  // ----- Who relies on a hold -----

  predicate OwesRelease(w: World, o: Id, i: nat) {
    o in w.releasing && (w.releasing[o].AwaitingEvent? || i in w.releasing[o].todo)
  }

  /** A seat of a live order, or of a cancelled one whose release is still on its way. */
  predicate Counts(w: World, o: Id, i: nat) {
    Seated(w, o, i) && (Live(w.orders[o].status) || OwesRelease(w, o, i))
  }

  /** A live order's unsold seat, or a cancelled order's seat whose release is still on its way. */
  predicate ItemClaims(w: World, o: Id, i: nat) {
    Seated(w, o, i) && ((Live(w.orders[o].status) && ItemKey(w, o, i) !in w.venue.sold) || OwesRelease(w, o, i))
  }

  predicate Reserved(w: World, req: Id, j: nat) {
    req in w.creating && j < w.creating[req].done && j < |w.creating[req].inputs| && Claimable(w.creating[req], j)
  }

  function ReservedToken(w: World, req: Id, j: nat): Token
    requires Reserved(w, req, j)
  {
    w.creating[req].inputs[j].holderToken.value
  }

  /** A create() in flight relies on what it has reserved, unless another order took the token over. */
  ghost predicate RequestClaims(w: World, req: Id, j: nat) {
    Reserved(w, req, j) && !Saved(w.tokens, ReservedToken(w, req, j))
  }

  ghost predicate Claimed(w: World, key: SeatKey) {
    || (exists o: Id, i: nat :: ItemClaims(w, o, i) && ItemKey(w, o, i) == key)
    || (exists req: Id, j: nat :: RequestClaims(w, req, j) && ClaimKey(w.creating[req], j) == key)
  }

  // ----- The hypotheses -----

  /** The token stands behind a seat that counts. */
  predicate Behind(w: World, o: Id, i: nat, token: Token) {
    TokenAt(w.tokens, o, i, token) && Counts(w, o, i)
  }

  ghost predicate BehindNothing(w: World, token: Token) {
    forall o: Id, i: nat :: !Behind(w, o, i, token)
  }

  ghost predicate NoLiveSeats(w: World, eventId: Id) {
    forall o: Id, i: nat :: LiveSeat(w, o, i) ==> w.orders[o].eventId != eventId
  }

  /** No create(), release or confirmation that has read the event is in flight. */
  ghost predicate NoCallsAbout(w: World, eventId: Id) {
    && (forall req :: req in w.creating ==> w.creating[req].eventId != eventId)
    && (forall o :: o in w.releasing && o < |w.orders| ==> w.orders[o].eventId != eventId)
    && (forall req :: req in w.orchestrating && w.orchestrating[req].Marking? && w.orchestrating[req].orderId < |w.orders| ==>
          w.orders[w.orchestrating[req].orderId].eventId != eventId)
  }

  predicate InputToken(c: Creating, j: nat, token: Token) {
    TokenAt([TokensOf(c.inputs)], 0, j, token)
  }

  /** The request's tokens are distinct and stand behind nothing; one that was saved before still holds
      its seat. */
  ghost predicate TokensFree(w: World, c: Creating) {
    && (forall j: nat, t :: InputToken(c, j, t) ==> BehindNothing(w, t))
    && (forall j: nat, k: nat, t :: InputToken(c, j, t) && InputToken(c, k, t) ==> j == k)
    && (forall j: nat, t :: InputToken(c, j, t) && Saved(w.tokens, t) && j < |c.inputs| && Claimable(c, j) ==>
          Held(w, ClaimKey(c, j), t))
  }

  /** (H1) an event keeps its seat-map version while a live order of it has a seat or a call that has
      read it is in flight; (H2) a claimed hold neither lapses nor is released by its buyer, while a
      release with a wrong token is no matter; (H3) a token stands behind at most one item of an order
      that is live or still to be released, and is saved again only while it holds its seat. A step
      that would change nothing is always allowed. */
  ghost predicate Allowed(w: World, step: Step) {
    match step
    case EditEvent(eventId, versionId) =>
      Version(w, eventId) == versionId || (NoLiveSeats(w, eventId) && NoCallsAbout(w, eventId))
    case Tick(now) => forall key :: key in w.venue.holds && Claimed(w, key) ==> now < w.venue.holds[key].expiresAt
    case Buyer(BuyerRelease(key, token)) => Held(w, key, token) ==> !Claimed(w, key)
    case Create(req, SaveOrder(items, _, _)) =>
      req in w.creating && w.creating[req].done == |w.creating[req].inputs| && Prepared(w.creating[req].inputs, items) ==>
        TokensFree(w, w.creating[req])
    case _ => true
  }

  // ----- The inductive invariant -----

  predicate Held(w: World, key: SeatKey, token: Token) {
    Get(w.venue.holds, key, w.now) == Some(token)
  }

  /** Seats that count know their token, and their event its version. */
  ghost predicate ShapesOk(w: World) {
    && |w.tokens| == |w.orders|
    && forall o: Id, i: nat :: Counts(w, o, i) ==>
         i < |w.tokens[o]| && w.tokens[o][i].Some? && Version(w, w.orders[o].eventId).Some?
  }

  ghost predicate TokensOnce(w: World) {
    forall o: Id, i: nat, p: Id, j: nat, t: Token ::
      Behind(w, o, i, t) && Behind(w, p, j, t) ==> o == p && i == j
  }

  /** Every remembered version is the event's version. */
  ghost predicate VersionsOk(w: World) {
    && (forall req :: req in w.creating ==>
          var c := w.creating[req];
          && c.versionId == Version(w, c.eventId) && c.done <= |c.inputs|
          && forall j: nat :: j < c.done && c.inputs[j].seatId.Some? ==> Claimable(c, j))
    && (forall o :: o in w.releasing && o < |w.orders| && w.releasing[o].Sending? ==>
          Version(w, w.orders[o].eventId) == Some(w.releasing[o].versionId))
    && (forall req :: req in w.orchestrating && w.orchestrating[req].Marking? && w.orchestrating[req].orderId < |w.orders| ==>
          Version(w, w.orders[w.orchestrating[req].orderId].eventId) == Some(w.orchestrating[req].versionId))
  }

  ghost predicate ItemsHeld(w: World) {
    forall o: Id, i: nat ::
      ItemClaims(w, o, i) ==> exists t :: TokenAt(w.tokens, o, i, t) && Held(w, ItemKey(w, o, i), t)
  }

  ghost predicate RequestsHeld(w: World) {
    forall req: Id, j: nat ::
      RequestClaims(w, req, j) ==> Held(w, ClaimKey(w.creating[req], j), ReservedToken(w, req, j))
  }

  ghost predicate SoldToOwner(w: World) {
    forall o: Id, i: nat ::
      LiveSeat(w, o, i) && ItemKey(w, o, i) in w.venue.sold ==> w.venue.sold[ItemKey(w, o, i)] == Some(o)
  }

  /** Every sold row is a live order's seat, in that order's name. */
  ghost predicate SoldFromOwner(w: World) {
    forall key :: key in w.venue.sold ==> exists o: Id, i: nat :: OwnsRow(w, o, i, key)
  }

  predicate OwnsRow(w: World, o: Id, i: nat, key: SeatKey) {
    LiveSeat(w, o, i) && ItemKey(w, o, i) == key && key in w.venue.sold && w.venue.sold[key] == Some(o)
  }

  ghost predicate Linked(w: World) {
    && ShapesOk(w)
    && TokensOnce(w)
    && VersionsOk(w)
  }

  ghost predicate Backed(w: World) {
    && Consistent(w.venue)
    && ItemsHeld(w)
    && RequestsHeld(w)
    && SoldToOwner(w)
    && SoldFromOwner(w)
  }

  /** The part of the invariant that exclusivity adds to the safety invariant. */
  ghost predicate Secure(w: World) {
    && Linked(w)
    && Backed(w)
    && Exclusive(w)
  }

  ghost predicate ExInv(w: World) {
    Inv(w) && Secure(w)
  }
}
