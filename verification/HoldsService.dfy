/** HoldsService itself, proved call by call against the state functions of Venue. */
module Holds {
  import opened Common
  import opened Venue

  /** HoldsService, its Redis keys and its sold_seats table updated in place. `now` is the clock
      reading of the call; `token` is the random UUID createHold draws. */
  class HoldsService {
    var holds: Holds
    var sold: SoldLedger

    ghost function Contents(): VenueState
      reads this
    {
      VenueState(holds, sold)
    }

    constructor ()
      ensures Contents() == EMPTY
    {
      holds, sold := map[], map[];
    }

    method CreateHold(versionId: Id, seatId: Id, ttl: nat, token: Token, now: int)
      returns (r: Result<HoldResult, HoldError>)
      modifies this
      ensures (Contents(), r) == Venue.CreateHold(old(Contents()), SeatKey(versionId, seatId), ttl, token, now)
    {
      var key := SeatKey(versionId, seatId);
      if key in sold {
        return Err(AlreadySold);
      }
      var (updated, ok) := SetNx(holds, key, token, ttl, now);
      if !ok {
        return Err(HeldByAnother);
      }
      holds := updated;
      return Ok(HoldResult(seatId, token, now + ttl));
    }

    method RenewHold(versionId: Id, seatId: Id, token: Token, ttl: nat, now: int)
      returns (r: Result<HoldResult, HoldError>)
      modifies this
      ensures (Contents(), r) == Venue.RenewHold(old(Contents()), SeatKey(versionId, seatId), token, ttl, now)
    {
      var key := SeatKey(versionId, seatId);
      var current := Get(holds, key, now);
      if current.None? {
        return Err(HoldExpired);
      }
      if current.value != token {
        return Err(TokenMismatch);
      }
      holds := Expire(holds, key, ttl, now);
      return Ok(HoldResult(seatId, token, now + ttl));
    }

    method ReleaseHold(versionId: Id, seatId: Id, token: Token, now: int) returns (r: Result<(), HoldError>)
      modifies this
      ensures (Contents(), r) == Venue.ReleaseHold(old(Contents()), SeatKey(versionId, seatId), token, now)
    {
      var key := SeatKey(versionId, seatId);
      var current := Get(holds, key, now);
      if current.None? {
        return Ok(());
      }
      if current.value != token {
        return Err(TokenMismatch);
      }
      holds := Del(holds, key);
      return Ok(());
    }

    method ReserveForOrder(versionId: Id, seatId: Id, token: Token, now: int)
      returns (r: Result<HoldResult, HoldError>)
      modifies this
      ensures (Contents(), r) == Venue.ReserveForOrder(old(Contents()), SeatKey(versionId, seatId), token, now)
    {
      r := RenewHold(versionId, seatId, token, ORDER_HOLD_TTL_SECONDS, now);
    }

    method ReleaseForOrder(versionId: Id, seatId: Id)
      modifies this
      ensures Contents() == Venue.ReleaseForOrder(old(Contents()), SeatKey(versionId, seatId))
    {
      holds := Del(holds, SeatKey(versionId, seatId));
    }

    method MarkSold(versionId: Id, seatId: Id, orderId: Option<Id>)
      modifies this
      ensures Contents() == Venue.MarkSold(old(Contents()), SeatKey(versionId, seatId), orderId)
    {
      var key := SeatKey(versionId, seatId);
      if key in sold {
        return;
      }
      sold := sold[key := orderId];
      holds := Del(holds, key);
    }

    /** One MGET and one query for the whole seat list, then `result` is filled seat by seat. */
    method GetAvailability(versionId: Id, seatIds: seq<Id>, requester: Option<Token>, now: int)
      returns (result: map<Id, SeatStatus>)
      ensures forall seatId :: seatId in result <==> seatId in seatIds
      ensures forall seatId :: seatId in result ==>
        result[seatId] == StatusOf(Contents(), SeatKey(versionId, seatId), requester, now)
    {
      var soldSeatIds := set key | key in sold && key.versionId == versionId :: key.seatId;
      var holderTokens := seq(|seatIds|, i requires 0 <= i < |seatIds| reads this =>
        Get(holds, SeatKey(versionId, seatIds[i]), now));
      result := map[];
      for index := 0 to |seatIds|
        invariant forall seatId :: seatId in result <==> seatId in seatIds[..index]
        invariant forall seatId :: seatId in result ==>
          result[seatId] == StatusOf(Contents(), SeatKey(versionId, seatId), requester, now)
      {
        var seatId := seatIds[index];
        assert seatId in soldSeatIds <==> SeatKey(versionId, seatId) in sold;
        if seatId in soldSeatIds {
          result := result[seatId := SOLD];
        } else {
          var holder := holderTokens[index];
          if holder.None? {
            result := result[seatId := AVAILABLE];
          } else if requester.Some? && holder.value == requester.value {
            result := result[seatId := HELD_BY_ME];
          } else {
            result := result[seatId := HELD];
          }
        }
      }
    }
  }
}
