/** The offers service: capped redemptions of the offers bundled with a ticket's tier. Calls are
    taken one at a time: the count check and the insert are not atomic in the service. */
module Offers {
  import opened Common

  datatype RedemptionType = SINGLE_USE | CAPPED | UNLIMITED

  /** `id`s are drawn from `nextId`; the discount's own fields never affect a redemption. */
  datatype Offer = Offer(eventId: Id, restaurantId: Id, redemptionType: RedemptionType, redemptionCap: Option<int>, tiers: set<Id>)
  datatype Redemption = Redemption(offerId: Id, ticketId: Id, staffId: Id)
  datatype Store = Store(offers: map<Id, Offer>, redemptions: seq<Redemption>, nextId: Id)

  const EMPTY := Store(map[], [], 0)

  datatype OfferError = OfferNotFound | TicketNotFound | Forbidden | NotBundled | FullyRedeemed | EventNotFound

  /** What check-in's lookup answers the staff member. */
  datatype Ticket = Ticket(id: Id, tierId: Id)

  datatype RedemptionState = RedemptionState(offer: Offer, redeemedCount: nat, remaining: Option<int>)

  function EffectiveCap(offer: Offer): Option<int> {
    match offer.redemptionType
    case SINGLE_USE => Some(1)
    case CAPPED => offer.redemptionCap
    case UNLIMITED => None
  }

  /** count({ offerId, orderItemId }). */
  function Count(redemptions: seq<Redemption>, offerId: Id, ticketId: Id): nat {
    if redemptions == [] then 0
    else
      var last := redemptions[|redemptions| - 1];
      Count(redemptions[..|redemptions| - 1], offerId, ticketId) + (if last.offerId == offerId && last.ticketId == ticketId then 1 else 0)
  }

  function Max(a: int, b: int): int { if a < b then b else a }

  /** What offersForTicket computes for one offer, from the stored rows. */
  function StateFor(st: Store, offerId: Id, ticketId: Id): RedemptionState
    requires offerId in st.offers
  {
    var redeemed := Count(st.redemptions, offerId, ticketId);
    var cap := EffectiveCap(st.offers[offerId]);
    RedemptionState(st.offers[offerId], redeemed, if cap.None? then None else Some(Max(cap.value - redeemed, 0)))
  }

  function OffersForTicket(st: Store, ticket: Ticket): map<Id, RedemptionState> {
    map id | id in st.offers && ticket.tierId in st.offers[id].tiers :: StateFor(st, id, ticket.id)
  }

  /** `ticket` is None when the lookup fails. */
  function Redeem(st: Store, offerId: Id, ticket: Option<Ticket>, staffId: Id): (Store, Result<RedemptionState, OfferError>) {
    if offerId !in st.offers then (st, Err(OfferNotFound))
    else if ticket.None? then (st, Err(TicketNotFound))
    else
      var offer := st.offers[offerId];
      if ticket.value.tierId !in offer.tiers then (st, Err(NotBundled))
      else
        var redeemed := Count(st.redemptions, offerId, ticket.value.id);
        var cap := EffectiveCap(offer);
        if cap.Some? && redeemed >= cap.value then (st, Err(FullyRedeemed))
        else
          (st.(redemptions := st.redemptions + [Redemption(offerId, ticket.value.id, staffId)]),
           Ok(RedemptionState(offer, redeemed + 1, if cap.None? then None else Some(Max(cap.value - (redeemed + 1), 0)))))
  }

  function WithoutOffer(redemptions: seq<Redemption>, offerId: Id): seq<Redemption> {
    if redemptions == [] then []
    else
      var before := WithoutOffer(redemptions[..|redemptions| - 1], offerId);
      if redemptions[|redemptions| - 1].offerId == offerId then before else before + [redemptions[|redemptions| - 1]]
  }

  datatype Change = Change(redemptionType: Option<RedemptionType>, redemptionCap: Option<Option<int>>, tiers: Option<set<Id>>)

  function Changed(offer: Offer, change: Change): Offer {
    offer.(
      redemptionType := if change.redemptionType.Some? then change.redemptionType.value else offer.redemptionType,
      redemptionCap := if change.redemptionCap.Some? then change.redemptionCap.value else offer.redemptionCap,
      tiers := if change.tiers.Some? then change.tiers.value else offer.tiers)
  }

  function Verdict(st: Store, id: Id, manages: set<Id>): Option<OfferError> {
    if id !in st.offers then Some(OfferNotFound)
    else if st.offers[id].restaurantId !in manages then Some(Forbidden)
    else None
  }

  function Create(st: Store, offer: Offer, manages: set<Id>): (Store, Result<Id, OfferError>) {
    if offer.restaurantId !in manages then (st, Err(Forbidden))
    else (st.(offers := st.offers[st.nextId := offer], nextId := st.nextId + 1), Ok(st.nextId))
  }

  function Update(st: Store, id: Id, change: Change, manages: set<Id>): (Store, Result<(), OfferError>) {
    match Verdict(st, id, manages)
    case Some(error) => (st, Err(error))
    case None => (st.(offers := st.offers[id := Changed(st.offers[id], change)]), Ok(()))
  }

  function Delete(st: Store, id: Id, manages: set<Id>): (Store, Result<(), OfferError>) {
    match Verdict(st, id, manages)
    case Some(error) => (st, Err(error))
    case None => (st.(offers := st.offers - {id}, redemptions := WithoutOffer(st.redemptions, id)), Ok(()))
  }

  // ----- redeem() against offersForTicket() -----

  lemma CountGrows(redemptions: seq<Redemption>, row: Redemption, offerId: Id, ticketId: Id)
    ensures Count(redemptions + [row], offerId, ticketId)
      == Count(redemptions, offerId, ticketId) + (if row.offerId == offerId && row.ticketId == ticketId then 1 else 0)
  {
    assert (redemptions + [row])[..|redemptions|] == redemptions;
  }

  lemma Listed(st: Store, ticket: Ticket, offerId: Id)
    ensures offerId in OffersForTicket(st, ticket) <==> offerId in st.offers && ticket.tierId in st.offers[offerId].tiers
    ensures offerId in OffersForTicket(st, ticket) ==> OffersForTicket(st, ticket)[offerId] == StateFor(st, offerId, ticket.id)
  {
  }

  /** What the listing says of one offer. */
  function Listing(st: Store, ticket: Ticket, offerId: Id): Option<RedemptionState> {
    if offerId in OffersForTicket(st, ticket) then Some(OffersForTicket(st, ticket)[offerId]) else None
  }

  /** When redeem succeeds, and what it then stores and answers. */
  lemma RedeemOutcome(st: Store, offerId: Id, ticket: Ticket, staffId: Id)
    requires offerId in st.offers
    ensures var (after, reply) := Redeem(st, offerId, Some(ticket), staffId);
      var offer, count, cap := st.offers[offerId], Count(st.redemptions, offerId, ticket.id), EffectiveCap(st.offers[offerId]);
      && (reply.Ok? <==> ticket.tierId in offer.tiers && (cap.Some? ==> count < cap.value))
      && (reply.Ok? ==>
            && after == st.(redemptions := st.redemptions + [Redemption(offerId, ticket.id, staffId)])
            && reply.value == RedemptionState(offer, count + 1, if cap.None? then None else Some(Max(cap.value - (count + 1), 0))))
  {
  }

  /** redeem succeeds exactly when the offer is listed for the ticket and its recomputed allowance is not
      used up; the state it answers with is what offersForTicket lists next, one redemption further. */
  lemma RedeemAgreesWithRecompute(st: Store, offerId: Id, ticket: Ticket, staffId: Id)
    requires offerId in st.offers && (EffectiveCap(st.offers[offerId]).Some? ==> EffectiveCap(st.offers[offerId]).value >= 0)
    ensures var (after, reply) := Redeem(st, offerId, Some(ticket), staffId);
      var before, listed := Listing(st, ticket, offerId), Listing(after, ticket, offerId);
      && (reply.Ok? <==> before.Some? && before.value.remaining != Some(0))
      && (reply.Ok? ==> listed == Some(reply.value) && reply.value.redeemedCount == before.value.redeemedCount + 1)
  {
    RedeemOutcome(st, offerId, ticket, staffId);
    Listed(st, ticket, offerId);
    hide Redeem, OffersForTicket;
    Listed(Redeem(st, offerId, Some(ticket), staffId).0, ticket, offerId);
    CountGrows(st.redemptions, Redemption(offerId, ticket.id, staffId), offerId, ticket.id);
  }

  /** And no other (offer, ticket) pair changes. */
  lemma RedeemTouchesNothingElse(st: Store, offerId: Id, ticket: Option<Ticket>, staffId: Id, other: Id, t: Id)
    requires other in st.offers && (other != offerId || ticket.None? || t != ticket.value.id)
    ensures other in Redeem(st, offerId, ticket, staffId).0.offers
    ensures StateFor(Redeem(st, offerId, ticket, staffId).0, other, t) == StateFor(st, other, t)
  {
    if ticket.Some? { CountGrows(st.redemptions, Redemption(offerId, ticket.value.id, staffId), other, t); }
  }

  // ----- Runs -----

  datatype Op =
    | CreateOp(offer: Offer, manages: set<Id>)
    | UpdateOp(id: Id, change: Change, manages: set<Id>)
    | DeleteOp(id: Id, manages: set<Id>)
    | RedeemOp(id: Id, ticket: Option<Ticket>, staffId: Id)

  function Do(st: Store, op: Op): Store {
    match op
    case CreateOp(offer, manages) => Create(st, offer, manages).0
    case UpdateOp(id, change, manages) => Update(st, id, change, manages).0
    case DeleteOp(id, manages) => Delete(st, id, manages).0
    case RedeemOp(id, ticket, staffId) => Redeem(st, id, ticket, staffId).0
  }

  function Run(ops: seq<Op>): Store
    decreases |ops|
  {
    if ops == [] then EMPTY else Do(Run(ops[..|ops| - 1]), ops[|ops| - 1])
  }

  lemma {:induction false} CountWithout(redemptions: seq<Redemption>, gone: Id, offerId: Id, ticketId: Id)
    ensures Count(WithoutOffer(redemptions, gone), offerId, ticketId) == if offerId == gone then 0 else Count(redemptions, offerId, ticketId)
    decreases |redemptions|
  {
    if redemptions != [] {
      var most, last := redemptions[..|redemptions| - 1], redemptions[|redemptions| - 1];
      CountWithout(most, gone, offerId, ticketId);
      if last.offerId != gone { CountGrows(WithoutOffer(most, gone), last, offerId, ticketId); }
    }
  }

  /** No redemption outlives its offer, and none precedes it. */
  ghost predicate Owned(st: Store) {
    && (forall id :: id in st.offers ==> id < st.nextId)
    && forall id: Id, t: Id :: id !in st.offers ==> Count(st.redemptions, id, t) == 0
  }

  lemma {:induction false} RunKeepsOwned(ops: seq<Op>)
    ensures Owned(Run(ops))
    decreases |ops|
  {
    if ops != [] {
      RunKeepsOwned(ops[..|ops| - 1]);
      DoKeepsOwned(Run(ops[..|ops| - 1]), ops[|ops| - 1]);
    }
  }

  lemma DoKeepsOwned(st: Store, op: Op)
    requires Owned(st)
    ensures Owned(Do(st, op))
  {
    forall id: Id, t: Id | id !in Do(st, op).offers ensures Count(Do(st, op).redemptions, id, t) == 0 {
      match op
      case DeleteOp(gone, _) => CountWithout(st.redemptions, gone, id, t);
      case RedeemOp(offerId, ticket, staffId) =>
        if ticket.Some? { CountGrows(st.redemptions, Redemption(offerId, ticket.value.id, staffId), id, t); }
      case _ =>
    }
  }

  lemma NewOffersAreUnused(st: Store, offer: Offer, manages: set<Id>, t: Id)
    requires Owned(st) && Create(st, offer, manages).1.Ok?
    ensures var (created, made) := Create(st, offer, manages);
      made.value in created.offers && StateFor(created, made.value, t).redeemedCount == 0
  {
    assert st.nextId !in st.offers;
  }

  lemma DeletionTakesItsOwn(st: Store, id: Id, manages: set<Id>, other: Id, t: Id)
    requires Delete(st, id, manages).1.Ok?
    ensures var deleted := Delete(st, id, manages).0;
      && id !in deleted.offers && Count(deleted.redemptions, id, t) == 0
      && (other in deleted.offers ==> other in st.offers && StateFor(deleted, other, t) == StateFor(st, other, t))
  {
    CountWithout(st.redemptions, id, id, t);
    CountWithout(st.redemptions, id, other, t);
  }

  /** In every run an offer starts unredeemed for every ticket, and no redemption outlives its offer:
      deleting it takes all of its redemptions and nobody else's. */
  lemma RedemptionsLiveWithTheirOffer(ops: seq<Op>, offer: Offer, id: Id, manages: set<Id>, other: Id, t: Id)
    ensures id !in Run(ops).offers ==> Count(Run(ops).redemptions, id, t) == 0
    ensures var (created, made) := Create(Run(ops), offer, manages);
      made.Ok? ==> made.value in created.offers && StateFor(created, made.value, t).redeemedCount == 0
    ensures var (deleted, gone) := Delete(Run(ops), id, manages);
      gone.Ok? ==>
        && id !in deleted.offers && Count(deleted.redemptions, id, t) == 0
        && (other in deleted.offers ==> other in Run(ops).offers && StateFor(deleted, other, t) == StateFor(Run(ops), other, t))
  {
    RunKeepsOwned(ops);
    if Create(Run(ops), offer, manages).1.Ok? { NewOffersAreUnused(Run(ops), offer, manages, t); }
    if Delete(Run(ops), id, manages).1.Ok? { DeletionTakesItsOwn(Run(ops), id, manages, other, t); }
  }

  /** As long as it exists, the offer keeps one effective cap. */
  ghost predicate CapFixed(ops: seq<Op>, id: Id, cap: int) {
    forall k :: 0 <= k <= |ops| ==> id in Run(ops[..k]).offers ==> EffectiveCap(Run(ops[..k]).offers[id]) == Some(cap)
  }

  /** Redemptions per (offer, ticket) never pass a fixed effective cap, in any serial run. */
  lemma {:induction false} RedemptionsStayWithinCap(ops: seq<Op>, id: Id, cap: int, ticketId: Id)
    requires cap >= 0 && CapFixed(ops, id, cap)
    ensures Count(Run(ops).redemptions, id, ticketId) <= cap
    decreases |ops|
  {
    if ops != [] {
      var most, op := ops[..|ops| - 1], ops[|ops| - 1];
      forall k | 0 <= k <= |most| && id in Run(most[..k]).offers ensures EffectiveCap(Run(most[..k]).offers[id]) == Some(cap) {
        assert most[..k] == ops[..k];
      }
      RedemptionsStayWithinCap(most, id, cap, ticketId);
      assert most[..|most|] == most;
      CapHeld(Run(most), op, id, cap, ticketId);
    }
  }

  lemma CapHeld(st: Store, op: Op, id: Id, cap: int, ticketId: Id)
    requires Count(st.redemptions, id, ticketId) <= cap && cap >= 0
    requires id in st.offers ==> EffectiveCap(st.offers[id]) == Some(cap)
    ensures Count(Do(st, op).redemptions, id, ticketId) <= cap
  {
    match op
    case DeleteOp(gone, _) => CountWithout(st.redemptions, gone, id, ticketId);
    case RedeemOp(offerId, ticket, staffId) =>
      if ticket.Some? { CountGrows(st.redemptions, Redemption(offerId, ticket.value.id, staffId), id, ticketId); }
    case _ =>
  }

  /** A cap that may change bounds only what follows: lowering it below the count refuses every
      further redemption but takes none back. */
  lemma LoweredCapRefuses(st: Store, offerId: Id, change: Change, manages: set<Id>, ticket: Ticket, staffId: Id)
    requires Verdict(st, offerId, manages).None?
    requires EffectiveCap(Changed(st.offers[offerId], change)).Some?
    requires EffectiveCap(Changed(st.offers[offerId], change)).value <= Count(st.redemptions, offerId, ticket.id)
    ensures var lowered := Update(st, offerId, change, manages).0;
      && Count(lowered.redemptions, offerId, ticket.id) == Count(st.redemptions, offerId, ticket.id)
      && Redeem(lowered, offerId, Some(ticket), staffId).1.Err?
  {
  }
}
