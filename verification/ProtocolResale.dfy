/** How a seat is sold again: whoever finds it free, or holds it, orders it, by allowed steps only. */
module ProtocolResale {
  import opened Common
  import opened Venue
  import opened Protocol
  import opened ProtocolSafety
  import opened ProtocolRuns
  import opened ProtocolClaims
  import opened ProtocolExclusivity
  import opened ProtocolRefinement
  import Pricing
  import Orders

  /** A token behind no saved item. */
  lemma {:induction false} UnsavedToken(tokens: TokenTable) returns (t: Token)
    ensures forall o: Id, i: nat, u: Token :: TokenAt(tokens, o, i, u) ==> u < t
  {
    if tokens == [] {
      t := 0;
    } else {
      var most, last := tokens[..|tokens| - 1], tokens[|tokens| - 1];
      var below := UnsavedToken(most);
      var above := UnsavedIn(last);
      t := if below < above then above else below;
      forall o: Id, i: nat, u: Token | TokenAt(tokens, o, i, u) ensures u < t {
        if o < |most| { assert TokenAt(most, o, i, u); } else { assert last[i] == Some(u); }
      }
    }
  }

  lemma {:induction false} UnsavedIn(row: seq<Option<Token>>) returns (t: Token)
    ensures forall i :: 0 <= i < |row| && row[i].Some? ==> row[i].value < t
  {
    if row == [] {
      t := 0;
    } else {
      t := UnsavedIn(row[..|row| - 1]);
      var last := row[|row| - 1];
      if last.Some? && last.value >= t { t := last.value + 1; }
      forall i | 0 <= i < |row| && row[i].Some? ensures row[i].value < t {
        if i < |row| - 1 { assert row[..|row| - 1][i] == row[i]; }
      }
    }
  }

  /** A seat of an event, and what a buyer needs to order it. */
  datatype Purchase = Purchase(eventId: Id, versionId: Id, seatId: Id, req: Id, token: Token)

  function KeyOf(p: Purchase): SeatKey { SeatKey(p.versionId, p.seatId) }
  function Input(p: Purchase): Orders.ItemInput { Orders.ItemInput(0, Some(p.seatId), Some(p.token)) }
  function Item(p: Purchase): Pricing.OrderItem { Pricing.OrderItem(0, Some(p.seatId), None, 0) }
  function Request(p: Purchase): Orders.OrderRequest { Orders.OrderRequest(p.eventId, Orders.PAYHERE, [Input(p)], None) }
  function Draft(p: Purchase): Creating { Creating(0, p.eventId, Some(p.versionId), Orders.PAYHERE, [Input(p)], 0, false) }
  function SavedOrder(p: Purchase): Orders.Order {
    Orders.Order(0, p.eventId, Orders.PENDING, Pricing.Sum([Item(p)]), 0, Pricing.Sum([Item(p)]) - 0, None, Orders.PAYHERE, [Item(p)])
  }

  /** The buyer's token holds the unsold seat of the event's version. */
  predicate Holding(w: World, p: Purchase) {
    && p.eventId in w.eventVersion && w.eventVersion[p.eventId] == Some(p.versionId) && p.req !in w.creating
    && KeyOf(p) !in w.venue.sold && Held(w, KeyOf(p), p.token)
  }

  function Stretched(w: World, p: Purchase): VenueState {
    w.venue.(holds := w.venue.holds[KeyOf(p) := Hold(p.token, w.now + ORDER_HOLD_TTL_SECONDS)])
  }

  function Ordered(w: World, p: Purchase): World {
    w.(venue := Stretched(w, p), orders := w.orders + [SavedOrder(p)], tokens := w.tokens + [TokensOf([Input(p)])])
  }

  function CheckSteps(p: Purchase): seq<Step> {
    [CreateBegin(p.req, 0, p.eventId, Orders.PAYHERE, [Input(p)]), Step.Create(p.req, CheckSeat)]
  }

  function SaveSteps(p: Purchase): seq<Step> {
    [Step.Create(p.req, ReserveSeat), Step.Create(p.req, SaveOrder([Item(p)], 0, None))]
  }

  function OrderSteps(p: Purchase): seq<Step> { CheckSteps(p) + SaveSteps(p) }

  function Checked(w: World, p: Purchase): World { Seen(w, p.req, Draft(p), w.venue, 0) }
  function Reserving(w: World, p: Purchase): World { Working(w, p.req, Draft(p), Stretched(w, p), 1) }

  lemma CheckRuns(w: World, p: Purchase)
    requires Holding(w, p)
    ensures Run(w, CheckSteps(p)) == Checked(w, p)
  {
    BeginRuns(w, p.req, 0, Request(p));
    SeatChecks(w, p.req, Draft(p), w.venue, 0);
    Pair(w, [], CheckSteps(p)[0], CheckSteps(p)[1]);
    SameRun(w, [] + CheckSteps(p), CheckSteps(p));
  }

  lemma ReserveRuns(w: World, p: Purchase)
    requires Holding(w, p)
    ensures Next(Checked(w, p), SaveSteps(p)[0]) == Reserving(w, p)
  {
    SeatReserves(w, p.req, Draft(p), w.venue, 0);
  }

  lemma OrderSaves(w: World, p: Purchase)
    requires Holding(w, p)
    ensures Next(Reserving(w, p), SaveSteps(p)[1]) == Ordered(w, p)
  {
    SaveRuns(w, p.req, Draft(p), Stretched(w, p), [Item(p)], 0, None);
  }

  lemma Joined(w: World, first: seq<Step>, mid: World, rest: seq<Step>, last: World)
    requires Run(w, first) == mid && Run(mid, rest) == last
    ensures Run(w, first + rest) == last
  {
    RunConcat(w, first, rest);
  }

  lemma OrderRuns(w: World, p: Purchase)
    requires Holding(w, p)
    ensures Run(w, OrderSteps(p)) == Ordered(w, p)
  {
    CheckRuns(w, p);
    ReserveRuns(w, p);
    OrderSaves(w, p);
    Pair(Checked(w, p), [], SaveSteps(p)[0], SaveSteps(p)[1]);
    SameRun(Checked(w, p), [] + SaveSteps(p), SaveSteps(p));
    hide Next, Holding, Checked, Reserving, Ordered;
    Joined(w, CheckSteps(p), Checked(w, p), SaveSteps(p), Ordered(w, p));
  }

  lemma SaveIsAllowed(w: World, p: Purchase)
    requires Holding(w, p) && BehindNothing(w, p.token)
    ensures Allowed(Reserving(w, p), SaveSteps(p)[1])
  {
    var ready := Reserving(w, p);
    assert TokensOf([Input(p)]) == [Some(p.token)];
    forall o: Id, i: nat ensures !Behind(ready, o, i, p.token) { assert !Behind(w, o, i, p.token); }
  }

  /** Only the save needs a condition, and its token stands behind nothing. */
  lemma OrderIsAllowed(w: World, p: Purchase)
    requires Holding(w, p) && BehindNothing(w, p.token)
    ensures AllowedRun(w, OrderSteps(p))
  {
    var steps := OrderSteps(p);
    CheckRuns(w, p);
    ReserveRuns(w, p);
    SaveIsAllowed(w, p);
    Extend(w, CheckSteps(p), SaveSteps(p)[0]);
    assert steps[..3] == CheckSteps(p) + [SaveSteps(p)[0]];
    hide Next, Run, Holding, Reserving, BehindNothing;
    forall k | 0 <= k < |steps| ensures Allowed(Run(w, steps[..k]), steps[k]) {
      if k == 3 { assert steps[k] == SaveSteps(p)[1]; }
    }
  }

  /** What a buyer needs to order item `i` of the order, with this token. */
  lemma MakePurchase(w: World, o: Id, i: nat, token: Token) returns (p: Purchase)
    requires Seated(w, o, i) && Version(w, w.orders[o].eventId).Some?
    ensures p.eventId == w.orders[o].eventId && p.eventId in w.eventVersion && w.eventVersion[p.eventId] == Some(p.versionId)
    ensures KeyOf(p) == ItemKey(w, o, i) && p.req !in w.creating && p.token == token
  {
    var eventId := w.orders[o].eventId;
    var req := FreshId(w.creating.Keys);
    p := Purchase(eventId, w.eventVersion[eventId].value, w.orders[o].items[i].seatId.value, req, token);
    assert req !in w.creating;
  }

  lemma SharedSeat(w: World, n: World, p: Purchase, o: Id, i: nat)
    requires LiveSeat(w, o, i) && KeyOf(p) == ItemKey(w, o, i) && n.orders == w.orders + [SavedOrder(p)]
    requires n.eventVersion == w.eventVersion && p.eventId in w.eventVersion && w.eventVersion[p.eventId] == Some(p.versionId)
    ensures !Exclusive(n)
  {
    assert LiveSeat(n, o, i) && LiveSeat(n, |w.orders|, 0) && ItemKey(n, o, i) == ItemKey(n, |w.orders|, 0);
  }

  /** A live order's seat that another token holds, one that stands behind nothing: its holder can order it too. */
  lemma HeldLiveSeatIsResold(w: World, o: Id, i: nat, token: Token) returns (steps: seq<Step>)
    requires LiveSeat(w, o, i) && Version(w, w.orders[o].eventId).Some? && ItemKey(w, o, i) !in w.venue.sold
    requires Held(w, ItemKey(w, o, i), token) && BehindNothing(w, token)
    ensures AllowedRun(w, steps) && !Exclusive(Run(w, steps))
  {
    hide AllowedRun, Exclusive, BehindNothing, OrderSteps, Next, Run;
    var p := MakePurchase(w, o, i, token);
    steps := OrderSteps(p);
    OrderRuns(w, p);
    OrderIsAllowed(w, p);
    SharedSeat(w, Ordered(w, p), p, o, i);
  }

  /** Whoever finds a seat free takes it, with a token never seen before. */
  lemma FreeSeatIsHeld(w: World, key: SeatKey) returns (token: Token)
    requires key !in w.venue.sold && Get(w.venue.holds, key, w.now).None?
    ensures var n := Next(w, Buyer(BuyerHold(key, token)));
      && n == w.(venue := n.venue) && n.venue.sold == w.venue.sold && Held(n, key, token)
      && BehindNothing(n, token) && AllowedRun(w, [Buyer(BuyerHold(key, token))])
      && Run(w, [Buyer(BuyerHold(key, token))]) == n
  {
    token := UnsavedToken(w.tokens);
    Single(w, Buyer(BuyerHold(key, token)));
  }

  /** A free seat with a live order on it can be ordered again. */
  lemma FreeLiveSeatIsResold(w: World, o: Id, i: nat) returns (steps: seq<Step>)
    requires LiveSeat(w, o, i) && Version(w, w.orders[o].eventId).Some?
    requires ItemKey(w, o, i) !in w.venue.sold && Get(w.venue.holds, ItemKey(w, o, i), w.now).None?
    ensures AllowedRun(w, steps) && !Exclusive(Run(w, steps))
  {
    hide AllowedRun, Exclusive, BehindNothing, Next, Run, Held;
    var token := FreeSeatIsHeld(w, ItemKey(w, o, i));
    var hold := [Buyer(BuyerHold(ItemKey(w, o, i), token))];
    var held := Run(w, hold);
    assert LiveSeat(held, o, i) && ItemKey(held, o, i) == ItemKey(w, o, i);
    var rest := HeldLiveSeatIsResold(held, o, i, token);
    AllowedConcat(w, hold, rest);
    Joined(w, hold, held, rest, Run(held, rest));
    steps := hold + rest;
  }

  /** The steps that deliver an owed release. */
  function DeliverSteps(w: World, o: Id, i: nat): seq<Step>
    requires o in w.releasing
  {
    if w.releasing[o].AwaitingEvent? then [Step.Release(o, FetchEvent(false)), Step.Release(o, Arrives(i))] else [Step.Release(o, Arrives(i))]
  }

  lemma ArrivesNow(w: World, o: Id, i: nat, r: Releasing)
    requires Seated(w, o, i) && o in w.releasing && w.releasing[o] == r && r.Sending? && i in r.todo
    requires Version(w, w.orders[o].eventId) == Some(r.versionId)
    ensures Next(w, Step.Release(o, Arrives(i)))
      == w.(venue := ReleaseForOrder(w.venue, ItemKey(w, o, i)), releasing := w.releasing[o := r.(todo := r.todo - {i})])
  {
  }

  lemma Delivers(w: World, o: Id, i: nat)
    requires Seated(w, o, i) && OwesRelease(w, o, i) && Version(w, w.orders[o].eventId).Some?
    requires w.releasing[o].Sending? ==> Version(w, w.orders[o].eventId) == Some(w.releasing[o].versionId)
    ensures var n := Run(w, DeliverSteps(w, o, i));
      n == w.(venue := ReleaseForOrder(w.venue, ItemKey(w, o, i)), releasing := n.releasing)
  {
    var fetch, arrive := Step.Release(o, FetchEvent(false)), Step.Release(o, Arrives(i));
    if w.releasing[o].AwaitingEvent? {
      var sending := Sending(Version(w, w.orders[o].eventId).value, SeatedItems(w.orders[o].items));
      var sent := w.(releasing := w.releasing[o := sending]);
      Fetches(w, o);
      Single(w, fetch);
      ArrivesNow(sent, o, i, sending);
      Single(sent, arrive);
      Joined(w, [fetch], sent, [arrive], Next(sent, arrive));
      SameRun(w, [fetch] + [arrive], [fetch, arrive]);
    } else {
      ArrivesNow(w, o, i, w.releasing[o]);
      Single(w, arrive);
    }
  }

  lemma Fetches(w: World, o: Id)
    requires o < |w.orders| && o in w.releasing && w.releasing[o].AwaitingEvent? && Version(w, w.orders[o].eventId).Some?
    ensures Next(w, Step.Release(o, FetchEvent(false)))
      == w.(releasing := w.releasing[o := Sending(Version(w, w.orders[o].eventId).value, SeatedItems(w.orders[o].items))])
  {
  }

  lemma DeliveryIsAllowed(w: World, o: Id, i: nat)
    requires o in w.releasing
    ensures AllowedRun(w, DeliverSteps(w, o, i))
  {
  }

  /** A live order's seat that shares its hold with a release still on its way: once delivered, the
      seat is free and can be ordered again. */
  lemma OwedSeatIsResold(w: World, o: Id, i: nat, p: Id, j: nat) returns (steps: seq<Step>)
    requires LiveSeat(w, p, j) && Seated(w, o, i) && OwesRelease(w, o, i) && ItemKey(w, p, j) == ItemKey(w, o, i)
    requires Version(w, w.orders[p].eventId).Some? && Version(w, w.orders[o].eventId).Some?
    requires w.releasing[o].Sending? ==> Version(w, w.orders[o].eventId) == Some(w.releasing[o].versionId)
    requires ItemKey(w, o, i) !in w.venue.sold
    ensures AllowedRun(w, steps) && !Exclusive(Run(w, steps))
  {
    Delivers(w, o, i);
    DeliveryIsAllowed(w, o, i);
    var deliver := DeliverSteps(w, o, i);
    var freed := Run(w, deliver);
    assert LiveSeat(freed, p, j) && ItemKey(freed, p, j) == ItemKey(w, p, j);
    hide AllowedRun, Exclusive, Next, Run, DeliverSteps;
    var rest := FreeLiveSeatIsResold(freed, p, j);
    AllowedConcat(w, deliver, rest);
    Joined(w, deliver, freed, rest, Run(freed, rest));
    steps := deliver + rest;
  }
}
