/** OffersService: offers and redemption rows changed in place, tied to the functions of Offers. */
module OfferService {
  import opened Common
  import opened Offers

  class OffersService {
    var offers: map<Id, Offer>
    var redemptions: seq<Redemption>
    var nextId: Id

    ghost function Contents(): Store
      reads this
    {
      Store(offers, redemptions, nextId)
    }

    constructor ()
      ensures Contents() == EMPTY
    {
      offers, redemptions, nextId := map[], [], 0;
    }

    method Create(offer: Offer, manages: set<Id>) returns (r: Result<Id, OfferError>)
      modifies this
      ensures (Contents(), r) == Offers.Create(old(Contents()), offer, manages)
    {
      if offer.restaurantId !in manages { return Err(Forbidden); }
      offers := offers[nextId := offer];
      nextId := nextId + 1;
      return Ok(nextId - 1);
    }

    /** Each field the request names is assigned; the others stay. */
    method Update(id: Id, change: Change, manages: set<Id>) returns (r: Result<(), OfferError>)
      modifies this
      ensures (Contents(), r) == Offers.Update(old(Contents()), id, change, manages)
    {
      if id !in offers { return Err(OfferNotFound); }
      var offer := offers[id];
      if offer.restaurantId !in manages { return Err(Forbidden); }
      if change.redemptionType.Some? { offer := offer.(redemptionType := change.redemptionType.value); }
      if change.redemptionCap.Some? { offer := offer.(redemptionCap := change.redemptionCap.value); }
      if change.tiers.Some? { offer := offer.(tiers := change.tiers.value); }
      offers := offers[id := offer];
      return Ok(());
    }

    method Delete(id: Id, manages: set<Id>) returns (r: Result<(), OfferError>)
      modifies this
      ensures (Contents(), r) == Offers.Delete(old(Contents()), id, manages)
    {
      if id !in offers { return Err(OfferNotFound); }
      if offers[id].restaurantId !in manages { return Err(Forbidden); }
      redemptions := WithoutOffer(redemptions, id);
      offers := offers - {id};
      return Ok(());
    }

    method Redeem(offerId: Id, ticket: Option<Ticket>, staffId: Id) returns (r: Result<RedemptionState, OfferError>)
      modifies this
      ensures (Contents(), r) == Offers.Redeem(old(Contents()), offerId, ticket, staffId)
    {
      if offerId !in offers { return Err(OfferNotFound); }
      if ticket.None? { return Err(TicketNotFound); }
      var offer := offers[offerId];
      if ticket.value.tierId !in offer.tiers { return Err(NotBundled); }
      var redeemedCount := Count(redemptions, offerId, ticket.value.id);
      var cap := EffectiveCap(offer);
      if cap.Some? && redeemedCount >= cap.value { return Err(FullyRedeemed); }
      redemptions := redemptions + [Redemption(offerId, ticket.value.id, staffId)];
      var newCount := redeemedCount + 1;
      return Ok(RedemptionState(offer, newCount, if cap.None? then None else Some(Max(cap.value - newCount, 0))));
    }
  }
}
