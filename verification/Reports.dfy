/** The reporting service's sums over an event's orders, and how they tie back to order pricing. */
module Reports {
  import opened Common
  import opened Pricing
  import opened Orders
  import OrderRuns

  datatype TierRow = TierRow(tierId: Id, sold: nat, revenue: int)
  datatype EventReport = EventReport(ticketsSold: nat, revenue: int, breakdown: seq<TierRow>)

  predicate Counts(order: Order) {
    order.status.CONFIRMED? || order.status.PAID?
  }

  function CountedOrders(orders: seq<Order>): seq<Order> {
    if orders == [] then []
    else
      var before, last := CountedOrders(orders[..|orders| - 1]), orders[|orders| - 1];
      if Counts(last) then before + [last] else before
  }

  function AllItems(orders: seq<Order>): seq<OrderItem> {
    if orders == [] then [] else AllItems(orders[..|orders| - 1]) + orders[|orders| - 1].items
  }

  function TicketsSold(orders: seq<Order>): nat {
    if orders == [] then 0 else TicketsSold(orders[..|orders| - 1]) + |orders[|orders| - 1].items|
  }

  function Revenue(orders: seq<Order>): int {
    if orders == [] then 0 else Revenue(orders[..|orders| - 1]) + orders[|orders| - 1].total
  }

  function Breakdown(tiers: seq<Id>, items: seq<OrderItem>): seq<TierRow> {
    seq(|tiers|, t requires 0 <= t < |tiers| =>
      TierRow(tiers[t], |OfTier(items, tiers[t])|, Sum(OfTier(items, tiers[t]))))
  }

  function Report(tiers: seq<Id>, orders: seq<Order>): EventReport {
    var counted := CountedOrders(orders);
    EventReport(TicketsSold(counted), Revenue(counted), Breakdown(tiers, AllItems(counted)))
  }

  function RowsSold(rows: seq<TierRow>): nat {
    if rows == [] then 0 else RowsSold(rows[..|rows| - 1]) + rows[|rows| - 1].sold
  }

  function RowsRevenue(rows: seq<TierRow>): int {
    if rows == [] then 0 else RowsRevenue(rows[..|rows| - 1]) + rows[|rows| - 1].revenue
  }

  /** Items of tiers that are not listed any more. */
  function Orphans(tiers: seq<Id>, items: seq<OrderItem>): seq<OrderItem> {
    if items == [] then []
    else
      var before, last := Orphans(tiers, items[..|items| - 1]), items[|items| - 1];
      if last.tierId in tiers then before else before + [last]
  }

  function Discounts(orders: seq<Order>): int {
    if orders == [] then 0 else Discounts(orders[..|orders| - 1]) + orders[|orders| - 1].discount
  }

  ghost predicate Distinct(tiers: seq<Id>) {
    forall t, u :: 0 <= t < u < |tiers| ==> tiers[t] != tiers[u]
  }

  /** The two totals that a breakdown over all items amounts to. */
  function SoldOf(tiers: seq<Id>, items: seq<OrderItem>): nat { RowsSold(Breakdown(tiers, items)) }
  function RevenueOf(tiers: seq<Id>, items: seq<OrderItem>): int { RowsRevenue(Breakdown(tiers, items)) }

  lemma BreakdownTiersSnoc(tiers: seq<Id>, items: seq<OrderItem>)
    requires tiers != []
    ensures var most, last := tiers[..|tiers| - 1], tiers[|tiers| - 1];
      && SoldOf(tiers, items) == SoldOf(most, items) + |OfTier(items, last)|
      && RevenueOf(tiers, items) == RevenueOf(most, items) + Sum(OfTier(items, last))
  {
    assert Breakdown(tiers, items)[..|tiers| - 1] == Breakdown(tiers[..|tiers| - 1], items);
  }

  lemma {:induction false} BreakdownOfNothing(tiers: seq<Id>)
    ensures SoldOf(tiers, []) == 0 && RevenueOf(tiers, []) == 0
  {
    if tiers != [] {
      BreakdownTiersSnoc(tiers, []);
      BreakdownOfNothing(tiers[..|tiers| - 1]);
    }
  }

  /** One more item adds to exactly one row, or to none if its tier is not listed. */
  lemma {:induction false} BreakdownItemsSnoc(tiers: seq<Id>, items: seq<OrderItem>, item: OrderItem)
    requires Distinct(tiers)
    ensures SoldOf(tiers, items + [item]) == SoldOf(tiers, items) + (if item.tierId in tiers then 1 else 0)
    ensures RevenueOf(tiers, items + [item]) == RevenueOf(tiers, items) + (if item.tierId in tiers then item.price else 0)
  {
    if tiers != [] {
      var most, last := tiers[..|tiers| - 1], tiers[|tiers| - 1];
      BreakdownTiersSnoc(tiers, items);
      BreakdownTiersSnoc(tiers, items + [item]);
      BreakdownItemsSnoc(most, items, item);
      assert (items + [item])[..|items|] == items;
      SumSnoc(OfTier(items, last), item);
      assert item.tierId in tiers <==> item.tierId in most || item.tierId == last;
      if item.tierId == last { assert item.tierId !in most; }
    }
  }

  lemma {:induction false} BreakdownPlusOrphans(tiers: seq<Id>, items: seq<OrderItem>)
    requires Distinct(tiers)
    ensures SoldOf(tiers, items) + |Orphans(tiers, items)| == |items|
    ensures RevenueOf(tiers, items) + Sum(Orphans(tiers, items)) == Sum(items)
  {
    if items == [] {
      BreakdownOfNothing(tiers);
    } else {
      var most, last := items[..|items| - 1], items[|items| - 1];
      BreakdownPlusOrphans(tiers, most);
      BreakdownItemsSnoc(tiers, most, last);
      assert most + [last] == items;
      SumSnoc(Orphans(tiers, most), last);
    }
  }

  lemma {:induction false} SumAppends(a: seq<OrderItem>, b: seq<OrderItem>)
    ensures Sum(a + b) == Sum(a) + Sum(b)
    decreases |b|
  {
    if b == [] {
      assert a + b == a;
    } else {
      assert (a + b)[..|a + b| - 1] == a + b[..|b| - 1];
      SumAppends(a, b[..|b| - 1]);
    }
  }

  lemma {:induction false} ItemsAddUp(orders: seq<Order>)
    requires forall o :: 0 <= o < |orders| ==> orders[o].subtotal == Sum(orders[o].items) && orders[o].total == orders[o].subtotal - orders[o].discount
    ensures |AllItems(orders)| == TicketsSold(orders)
    ensures Sum(AllItems(orders)) == Revenue(orders) + Discounts(orders)
  {
    if orders != [] {
      ItemsAddUp(orders[..|orders| - 1]);
      SumAppends(AllItems(orders[..|orders| - 1]), orders[|orders| - 1].items);
    }
  }

  lemma {:induction false} CountedAreOrders(orders: seq<Order>)
    ensures forall order :: order in CountedOrders(orders) <==> order in orders && Counts(order)
  {
    if orders != [] {
      CountedAreOrders(orders[..|orders| - 1]);
      assert orders == orders[..|orders| - 1] + [orders[|orders| - 1]];
    }
  }

  lemma {:induction false} NoOrphansExactly(tiers: seq<Id>, items: seq<OrderItem>)
    ensures Orphans(tiers, items) == [] <==> forall item :: item in items ==> item.tierId in tiers
  {
    if items != [] {
      NoOrphansExactly(tiers, items[..|items| - 1]);
      assert items == items[..|items| - 1] + [items[|items| - 1]];
    }
  }

  function OrdersOf(orders: seq<Order>, eventId: Id): seq<Order> {
    if orders == [] then []
    else
      var before, last := OrdersOf(orders[..|orders| - 1], eventId), orders[|orders| - 1];
      if last.eventId == eventId then before + [last] else before
  }

  lemma {:induction false} OrdersOfAreOrders(orders: seq<Order>, eventId: Id)
    ensures forall order :: order in OrdersOf(orders, eventId) <==> order in orders && order.eventId == eventId
  {
    if orders != [] {
      OrdersOfAreOrders(orders[..|orders| - 1], eventId);
      assert orders == orders[..|orders| - 1] + [orders[|orders| - 1]];
    }
  }

  /** Report conservation after any serial run of the order service, for any list of the event's
      tiers still on file. What the breakdown misses is exactly the items of tiers that are gone:
      the sold counts add up to ticketsSold if and only if no counted item is of such a tier, and
      then breakdown revenue minus headline revenue is exactly the discounts of the counted orders. */
  lemma ReportConserves(up: Upstream, ops: seq<Op>, eventId: Id, tiers: seq<Id>)
    requires Distinct(tiers)
    ensures var orders := OrdersOf(Run(up, ops).orders, eventId);
      var counted, report := CountedOrders(orders), Report(tiers, orders);
      var gone := Orphans(tiers, AllItems(counted));
      && RowsSold(report.breakdown) + |gone| == report.ticketsSold
      && RowsRevenue(report.breakdown) + Sum(gone) - report.revenue == Discounts(counted)
      && (RowsSold(report.breakdown) == report.ticketsSold
          <==> forall item :: item in AllItems(counted) ==> item.tierId in tiers)
      && (RowsSold(report.breakdown) == report.ticketsSold ==>
            RowsRevenue(report.breakdown) - report.revenue == Discounts(counted))
  {
    OrderRuns.RunKeepsOrders(up, ops);
    var orders := OrdersOf(Run(up, ops).orders, eventId);
    OrdersOfAreOrders(Run(up, ops).orders, eventId);
    var counted := CountedOrders(orders);
    CountedAreOrders(orders);
    forall o | 0 <= o < |counted|
      ensures counted[o].subtotal == Sum(counted[o].items) && counted[o].total == counted[o].subtotal - counted[o].discount
    {
      assert counted[o] in orders && counted[o] in Run(up, ops).orders;
    }
    ItemsAddUp(counted);
    BreakdownPlusOrphans(tiers, AllItems(counted));
    NoOrphansExactly(tiers, AllItems(counted));
  }

  /** The tier list of an event holds every tier its items were sold under, unless tiers were
      deleted since: create() only saves items whose tier belongs to the order's event. */
  lemma FullTierListMissesNothing(up: Upstream, ops: seq<Op>, eventId: Id, tiers: seq<Id>)
    requires Distinct(tiers)
    requires forall tierId :: tierId in up.tiers && up.tiers[tierId].eventId == eventId ==> tierId in tiers
    ensures var orders := OrdersOf(Run(up, ops).orders, eventId);
      var report := Report(tiers, orders);
      && RowsSold(report.breakdown) == report.ticketsSold
      && RowsRevenue(report.breakdown) - report.revenue == Discounts(CountedOrders(orders))
  {
    ReportConserves(up, ops, eventId, tiers);
    OrderRuns.RunKeepsOrders(up, ops);
    var orders := OrdersOf(Run(up, ops).orders, eventId);
    OrdersOfAreOrders(Run(up, ops).orders, eventId);
    CountedAreOrders(orders);
    forall item | item in AllItems(CountedOrders(orders)) ensures item.tierId in tiers {
      var order := ItemHasOrder(CountedOrders(orders), item);
      assert order in orders && order in Run(up, ops).orders;
      var i :| 0 <= i < |order.items| && order.items[i] == item;
      assert OrderRuns.ItemFits(up, order.eventId, order.items[i]);
    }
  }

  lemma {:induction false} ItemHasOrder(orders: seq<Order>, item: OrderItem) returns (order: Order)
    requires item in AllItems(orders)
    ensures order in orders && item in order.items
  {
    if item in orders[|orders| - 1].items {
      order := orders[|orders| - 1];
    } else {
      order := ItemHasOrder(orders[..|orders| - 1], item);
    }
  }

  // ----- The restaurant rollup -----

  datatype Entry = Entry(eventId: Id, ticketsSold: nat, revenue: int)

  function EntryOf(eventId: Id, report: Option<EventReport>): Entry {
    match report case Some(r) => Entry(eventId, r.ticketsSold, r.revenue) case None => Entry(eventId, 0, 0)
  }

  function EntriesSold(entries: seq<Entry>): nat {
    if entries == [] then 0 else EntriesSold(entries[..|entries| - 1]) + entries[|entries| - 1].ticketsSold
  }

  function EntriesRevenue(entries: seq<Entry>): int {
    if entries == [] then 0 else EntriesRevenue(entries[..|entries| - 1]) + entries[|entries| - 1].revenue
  }

  /** One report per event, gathered in a loop; a failed report is null and only loses its own
      event. The rollup's totals are the sums of the entries it lists. */
  method RestaurantReport(eventIds: seq<Id>, reports: map<Id, EventReport>)
    returns (ticketsSold: nat, revenue: int, entries: seq<Entry>)
    ensures |entries| == |eventIds|
    ensures forall e :: 0 <= e < |eventIds| ==>
      entries[e] == EntryOf(eventIds[e], if eventIds[e] in reports then Some(reports[eventIds[e]]) else None)
    ensures ticketsSold == EntriesSold(entries) && revenue == EntriesRevenue(entries)
  {
    var events: seq<Option<EventReport>> := [];
    for e := 0 to |eventIds|
      invariant |events| == e
      invariant forall k :: 0 <= k < e ==>
        events[k] == (if eventIds[k] in reports then Some(reports[eventIds[k]]) else None)
    {
      var report := if eventIds[e] in reports then Some(reports[eventIds[e]]) else None;
      events := events + [report];
    }
    ticketsSold, revenue := 0, 0;
    entries := [];
    for e := 0 to |eventIds|
      invariant |entries| == e
      invariant forall k :: 0 <= k < e ==> entries[k] == EntryOf(eventIds[k], events[k])
      invariant ticketsSold == EntriesSold(entries) && revenue == EntriesRevenue(entries)
    {
      var entry := EntryOf(eventIds[e], events[e]);
      assert (entries + [entry])[..|entries|] == entries;
      if events[e].Some? {
        ticketsSold, revenue := ticketsSold + events[e].value.ticketsSold, revenue + events[e].value.revenue;
      }
      entries := entries + [entry];
    }
  }
}
