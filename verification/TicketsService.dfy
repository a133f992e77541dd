/** TicketsService as the code runs it alone: the item loop of getForOrder and the in-place check-in. */
module TicketService {
  import opened Common
  import opened Tickets

  datatype CheckInError = TicketNotFound | AlreadyCheckedIn(since: Option<int>)

  /** A new ticket, for one of the order's first `n` items that had none. */
  ghost predicate MadeFor(before: Table, ticket: Ticket, orderId: Id, order: Order, qrTokens: seq<nat>, n: nat)
    requires n <= |order.items| && |qrTokens| == |order.items|
  {
    exists j :: 0 <= j < n && ticket == Fresh(orderId, order, order.items[j], qrTokens[j]) && FindItem(before, order.items[j].id).None?
  }

  /** After the first `i` items: a ticket for each, and only such tickets are new. */
  ghost predicate Progress(before: Table, rows: Table, orderId: Id, order: Order, qrTokens: seq<nat>, i: nat, out: seq<nat>)
    requires i <= |order.items| && |qrTokens| == |order.items|
  {
    && Unique(rows) && |rows| >= |before| && rows[..|before|] == before
    && |out| == i && Matches(rows, order.items, out)
    && (forall j :: i <= j < |qrTokens| ==> FindToken(rows, qrTokens[j]).None?)
    && (forall k :: |before| <= k < |rows| ==> MadeFor(before, rows[k], orderId, order, qrTokens, i))
  }

  lemma OldRowsLack(before: Table, after: Table, itemId: Id)
    requires |before| <= |after| && after[..|before|] == before && FindItem(after, itemId).None?
    ensures FindItem(before, itemId).None?
  {
    forall k | 0 <= k < |before| ensures before[k].item.id != itemId { assert after[..|before|][k] == after[k]; }
  }

  lemma MadeForMore(before: Table, ticket: Ticket, orderId: Id, order: Order, qrTokens: seq<nat>, i: nat)
    requires i < |order.items| == |qrTokens| && MadeFor(before, ticket, orderId, order, qrTokens, i)
    ensures MadeFor(before, ticket, orderId, order, qrTokens, i + 1)
  {
  }

  lemma ProgressSteps(before: Table, rows: Table, after: Table, orderId: Id, order: Order, qrTokens: seq<nat>, i: nat, out: seq<nat>)
    requires i < |order.items| == |qrTokens| && |out| == i + 1
    requires Progress(before, rows, orderId, order, qrTokens, i, out[..i])
    requires forall j, k :: 0 <= j < k < |qrTokens| ==> qrTokens[j] != qrTokens[k]
    requires out[i] < |after| && after[out[i]].item.id == order.items[i].id
    requires after == rows || (FindItem(rows, order.items[i].id).None? && after == rows + [Fresh(orderId, order, order.items[i], qrTokens[i])])
    ensures Progress(before, after, orderId, order, qrTokens, i + 1, out)
  {
    forall j | i < j < |qrTokens| ensures FindToken(after, qrTokens[j]).None? {}
    assert Unique(after) && after[..|before|] == rows[..|before|];
    forall j | 0 <= j < i + 1 ensures out[j] < |after| && after[out[j]].item.id == order.items[j].id {
      if j < i { assert out[..i][j] == out[j]; }
    }
    forall k | |before| <= k < |after| ensures MadeFor(before, after[k], orderId, order, qrTokens, i + 1) {
      if k < |rows| {
        assert after[k] == rows[k];
        MadeForMore(before, rows[k], orderId, order, qrTokens, i);
      } else {
        OldRowsLack(before, rows, order.items[i].id);
      }
    }
  }

  class TicketsService {
    var rows: Table

    ghost predicate Valid()
      reads this
    {
      Unique(rows)
    }

    constructor ()
      ensures Valid() && rows == []
    {
      rows := [];
    }

    /** `qrTokens` are the random tokens this call would draw, one an item; unused and distinct. */
    method GetForOrder(orderId: Id, order: Order, confirmed: bool, qrTokens: seq<nat>) returns (out: seq<nat>)
      requires Valid() && |qrTokens| == |order.items|
      requires forall j :: 0 <= j < |qrTokens| ==> FindToken(rows, qrTokens[j]).None?
      requires forall j, k :: 0 <= j < k < |qrTokens| ==> qrTokens[j] != qrTokens[k]
      modifies this
      ensures Valid() && |rows| >= |old(rows)| && rows[..|old(rows)|] == old(rows)
      ensures !confirmed ==> rows == old(rows) && out == []
      ensures confirmed ==> |out| == |order.items| && Matches(rows, order.items, out)
      ensures forall k :: |old(rows)| <= k < |rows| ==>
        MadeFor(old(rows), rows[k], orderId, order, qrTokens, |order.items|)
    {
      out := [];
      if !confirmed { return; }
      var existing := Existing(rows, orderId);
      for i := 0 to |order.items|
        invariant Progress(old(rows), rows, orderId, order, qrTokens, i, out)
        invariant SnapshotOk(rows, existing)
      {
        var item := order.items[i];
        ghost var before := rows;
        if item.id in existing {
          out := out + [existing[item.id]];
        } else {
          var got := SaveOrAdopt(orderId, order, item, qrTokens[i]);
          out := out + [got];
        }
        ProgressSteps(old(rows), before, rows, orderId, order, qrTokens, i, out);
      }
    }

    /** One save, and the re-read when the item's unique constraint refuses it. */
    method SaveOrAdopt(orderId: Id, order: Order, item: Item, qrToken: nat) returns (ticket: nat)
      requires Valid() && FindToken(rows, qrToken).None?
      modifies this
      ensures Valid()
      ensures match FindItem(old(rows), item.id)
        case Some(winner) => rows == old(rows) && ticket == winner
        case None => rows == old(rows) + [Fresh(orderId, order, item, qrToken)] && ticket == |old(rows)|
    {
      var saved := Insert(rows, Fresh(orderId, order, item, qrToken));
      match saved {
        case Some(after) =>
          ticket := |rows|;
          rows := after;
        case None =>
          var winner := FindItem(rows, item.id);
          ticket := winner.value;
      }
    }

    method CheckIn(qrToken: nat, staffId: Id, now: int) returns (r: Result<Ticket, CheckInError>)
      requires Valid()
      modifies this
      ensures Valid()
      ensures FindToken(old(rows), qrToken).None? ==> r == Err(TicketNotFound) && rows == old(rows)
      ensures FindToken(old(rows), qrToken).Some? ==>
        var id := FindToken(old(rows), qrToken).value;
        var ticket := old(rows)[id];
        && (ticket.status == CHECKED_IN ==> r == Err(AlreadyCheckedIn(ticket.checkedInAt)) && rows == old(rows))
        && (ticket.status == ISSUED ==>
              r == Ok(CheckedIn(ticket, staffId, now)) && rows == old(rows)[id := CheckedIn(ticket, staffId, now)])
    {
      var found := FindToken(rows, qrToken);
      if found.None? { return Err(TicketNotFound); }
      var ticket := rows[found.value];
      if ticket.status == CHECKED_IN { return Err(AlreadyCheckedIn(ticket.checkedInAt)); }
      ticket := ticket.(status := CHECKED_IN);
      ticket := ticket.(checkedInAt := Some(now));
      ticket := ticket.(checkedInBy := Some(staffId));
      rows := rows[found.value := ticket];
      r := Ok(ticket);
    }
  }
}
