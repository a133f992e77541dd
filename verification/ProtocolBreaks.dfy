/** Why seat exclusivity needs its conditions: runs of the code in which two CONFIRMED orders
    share one seat, each with a single step that is not allowed, one for each condition. */
module ProtocolBreaks {
  import opened Common
  import opened Venue
  import opened Protocol
  import opened ProtocolRuns
  import opened ProtocolClaims
  import opened ProtocolExclusivity
  import Pricing
  import Orders
  import Payments

  const KEY := SeatKey(5, 11)
  const SEATED_EVENT: map<Id, Option<Id>> := map[7 := Some(5)]

  /** The same seat of the event, on version `v` of its map. */
  function KeyOn(v: Id): SeatKey { SeatKey(v, 11) }

  function Inputs(token: Token): seq<Orders.ItemInput> {
    [Orders.ItemInput(3, Some(11), Some(token))]
  }

  const ITEMS := [Pricing.OrderItem(3, Some(11), None, 500)]

  function Ordered(status: Orders.OrderStatus): Orders.Order {
    Orders.Order(1, 7, status, 500, 0, 500, None, Orders.PAYHERE, ITEMS)
  }

  /** One create() call for the seat, start to end. */
  function Place(token: Token): seq<Step> {
    [CreateBegin(0, 1, 7, Orders.PAYHERE, Inputs(token)), Step.Create(0, CheckSeat)]
    + [Step.Create(0, ReserveSeat), Step.Create(0, SaveOrder(ITEMS, 0, None))]
  }

  /** One PayHere payment whose notice arrives and whose confirm call succeeds. */
  function PayFor(o: Id): seq<Step> {
    [PayFetchOrder(0, o), Pay(0, Initiate)] + [Review(0, Webhook(o, true, "2")), Orchestrate(0, Confirm(true, false))]
  }

  lemma Four(w: World, a: Step, b: Step, c: Step, d: Step)
    ensures Run(w, [a, b] + [c, d]) == Next(Next(Next(Next(w, a), b), c), d)
  {
    Pair(w, [], a, b);
    assert [] + [a, b] == [a, b];
    Pair(w, [a, b], c, d);
  }

  /** The world stands at rest and `token` holds the unsold seat. */
  predicate Ready(w: World, v: Id, token: Token) {
    && w.creating == map[]
    && w.paying == map[]
    && w.orchestrating == map[]
    && w.eventVersion == map[7 := Some(v)]
    && w.venue.sold == map[]
    && Held(w, KeyOn(v), token)
  }

  function Claiming(v: Id, token: Token, done: nat, checked: bool): Creating {
    Creating(1, 7, Some(v), Orders.PAYHERE, Inputs(token), done, checked)
  }

  lemma PlaceChecks(w: World, v: Id, token: Token)
    requires Ready(w, v, token)
    ensures Next(Next(w, Place(token)[0]), Place(token)[1]) == w.(creating := map[0 := Claiming(v, token, 0, true)])
  {
    assert Next(w, Place(token)[0]) == w.(creating := map[0 := Claiming(v, token, 0, false)]);
  }

  lemma PlaceReserves(w: World, v: Id, token: Token)
    requires w.creating == map[0 := Claiming(v, token, 0, true)] && Held(w, KeyOn(v), token)
    ensures Next(w, Place(token)[2]) == w.(
      venue := VenueState(w.venue.holds[KeyOn(v) := Hold(token, w.now + ORDER_HOLD_TTL_SECONDS)], w.venue.sold),
      creating := map[0 := Claiming(v, token, 1, false)])
  {
    assert ClaimKey(Claiming(v, token, 0, true), 0) == KeyOn(v);
  }

  lemma PlaceSaves(w: World, v: Id, token: Token)
    requires w.creating == map[0 := Claiming(v, token, 1, false)]
    ensures Next(w, Place(token)[3]) == w.(
      creating := map[], orders := w.orders + [Ordered(Orders.PENDING)], tokens := w.tokens + [TokensOf(Inputs(token))])
  {
    assert Pricing.Sum(ITEMS) == 500;
    assert w.creating - {0} == map[];
  }

  lemma PlaceRun(w: World, v: Id, token: Token)
    requires Ready(w, v, token)
    ensures var n := Run(w, Place(token));
      && Ready(n, v, token)
      && n == w.(venue := n.venue, orders := w.orders + [Ordered(Orders.PENDING)], tokens := w.tokens + [TokensOf(Inputs(token))])
      && n.venue.holds == w.venue.holds[KeyOn(v) := Hold(token, w.now + ORDER_HOLD_TTL_SECONDS)]
  {
    hide Next, Run, TokensOf;
    Four(w, Place(token)[0], Place(token)[1], Place(token)[2], Place(token)[3]);
    PlaceChecks(w, v, token);
    var checked := w.(creating := map[0 := Claiming(v, token, 0, true)]);
    PlaceReserves(checked, v, token);
    PlaceSaves(Next(checked, Place(token)[2]), v, token);
  }

  // ----- Which steps are allowed -----

  /** Every step is allowed, except the one at `bad`. */
  ghost predicate OnlyBreak(w: World, steps: seq<Step>, bad: nat) {
    && bad < |steps| && !Allowed(Run(w, steps[..bad]), steps[bad])
    && forall k :: 0 <= k < |steps| && k != bad ==> Allowed(Run(w, steps[..k]), steps[k])
  }

  lemma BreakAt(w: World, steps: seq<Step>, before: seq<Step>, step: Step, after: seq<Step>)
    requires steps == before + [step] + after
    requires AllowedRun(w, before) && !Allowed(Run(w, before), step) && AllowedRun(Run(w, before + [step]), after)
    ensures OnlyBreak(w, steps, |before|)
  {
    hide Allowed, Next;
    assert steps[..|before|] == before;
    forall k | 0 <= k < |steps| && k != |before| ensures Allowed(Run(w, steps[..k]), steps[k]) {
      if k < |before| {
        assert steps[..k] == before[..k];
      } else {
        assert steps[..k] == (before + [step]) + after[..k - |before| - 1];
        RunConcat(w, before + [step], after[..k - |before| - 1]);
      }
    }
  }

  /** The world in which Place saves its order. */
  function Placing(w: World, v: Id, token: Token): World {
    w.(venue := VenueState(w.venue.holds[KeyOn(v) := Hold(token, w.now + ORDER_HOLD_TTL_SECONDS)], w.venue.sold),
       creating := map[0 := Claiming(v, token, 1, false)])
  }

  lemma PlacingRuns(w: World, v: Id, token: Token)
    requires Ready(w, v, token)
    ensures Run(w, Place(token)[..3]) == Placing(w, v, token)
  {
    PlaceChecks(w, v, token);
    PlaceReserves(w.(creating := map[0 := Claiming(v, token, 0, true)]), v, token);
    var steps := Place(token);
    Pair(w, [], steps[0], steps[1]);
    Extend(w, [] + [steps[0], steps[1]], steps[2]);
    assert steps[..3] == [] + [steps[0], steps[1]] + [steps[2]];
    hide Next;
  }

  lemma QuietSteps(w: World, token: Token)
    ensures AllowedRun(w, Place(token)[..3])
  {
    hide Next, Run;
  }

  /** Placing an order asks only that its token stands behind nothing. */
  lemma PlacingIsAllowed(w: World, v: Id, token: Token)
    requires Ready(w, v, token) && BehindNothing(w, token)
    ensures AllowedRun(w, Place(token))
  {
    var steps := Place(token);
    QuietSteps(w, token);
    PlacingRuns(w, v, token);
    FreeToPlace(w, v, token);
    hide Next, Run, TokensFree, Placing, Place, BehindNothing, Ready;
    PlaceHasFour(token);
    forall k | 0 <= k < |steps| ensures Allowed(Run(w, steps[..k]), steps[k]) {
      if k < 3 { assert steps[..3][..k] == steps[..k]; }
    }
  }

  lemma PlaceHasFour(token: Token)
    ensures |Place(token)| == 4 && Place(token)[3] == Step.Create(0, SaveOrder(ITEMS, 0, None))
  {
  }

  lemma FreeToPlace(w: World, v: Id, token: Token)
    requires BehindNothing(w, token)
    ensures TokensFree(Placing(w, v, token), Claiming(v, token, 1, false))
  {
    var ready := Placing(w, v, token);
    assert TokensOf(Inputs(token)) == [Some(token)];
    forall o: Id, i: nat ensures !Behind(ready, o, i, token) { assert !Behind(w, o, i, token); }
  }

  lemma PayingIsAllowed(w: World, o: Id)
    ensures AllowedRun(w, PayFor(o))
  {
    hide Next, Run;
  }

  lemma BothPaymentsAllowed(w: World)
    ensures AllowedRun(w, PayFor(0) + PayFor(1))
  {
    PayingIsAllowed(w, 0);
    PayingIsAllowed(Run(w, PayFor(0)), 1);
    hide Next, Run, AllowedRun;
    AllowedConcat(w, PayFor(0), PayFor(1));
  }

  lemma NoticeConfirms(w: World, o: Id)
    requires w.orchestrating == map[] && o < |w.orders| && w.orders[o] == Ordered(Orders.PENDING)
    requires o in w.store.payments && w.store.payments[o].status == Payments.AWAITING
    ensures var n := Next(Next(w, PayFor(o)[2]), PayFor(o)[3]);
      && n == w.(orders := w.orders[o := Ordered(Orders.CONFIRMED)], store := n.store, approvals := n.approvals, unconfirmed := n.unconfirmed)
      && n.store.payments.Keys == w.store.payments.Keys
  {
    var approved := Next(w, PayFor(o)[2]);
    assert approved.orchestrating == map[0 := ToConfirm(o)];
    assert approved.orchestrating - {0} == map[];
  }

  lemma PayRun(w: World, v: Id, token: Token, o: Id)
    requires Ready(w, v, token) && o < |w.orders| && w.orders[o] == Ordered(Orders.PENDING) && o !in w.store.payments
    ensures var n := Run(w, PayFor(o));
      && Ready(n, v, token) && n.now == w.now && n.venue == w.venue && n.orders == w.orders[o := Ordered(Orders.CONFIRMED)]
      && n.store.payments.Keys == w.store.payments.Keys + {o}
  {
    Four(w, PayFor(o)[0], PayFor(o)[1], PayFor(o)[2], PayFor(o)[3]);
    PayHereStarted(w, o);
    NoticeConfirms(w.(store := Payments.Initiate(w.store, o, Orders.PAYHERE).0), o);
  }

  /** Two CONFIRMED orders for one seat. */
  ghost predicate SoldTwice(w: World) {
    && |w.orders| == 2
    && w.orders[0] == w.orders[1] == Ordered(Orders.CONFIRMED)
    && !Exclusive(w)
  }

  lemma BothConfirmed(w: World)
    requires w.orders == [Ordered(Orders.CONFIRMED), Ordered(Orders.CONFIRMED)]
    ensures SoldTwice(w)
  {
    assert LiveSeat(w, 0, 0) && LiveSeat(w, 1, 0) && ItemKey(w, 0, 0) == ItemKey(w, 1, 0);
  }

  const HELD_ONCE: seq<Step> := [Buyer(BuyerHold(KEY, 1))]

  lemma HoldRun()
    ensures var n := Run(Start(SEATED_EVENT), HELD_ONCE);
      Ready(n, 5, 1) && n == Start(SEATED_EVENT).(venue := n.venue)
  {
    Extend(Start(SEATED_EVENT), [], HELD_ONCE[0]);
    assert [] + HELD_ONCE == HELD_ONCE;
  }

  const ORDERED_ONCE: seq<Step> := HELD_ONCE + Place(1)

  /** One buyer holds the seat and orders it: all allowed, and the hold is claimed. */
  lemma OrderedOnce()
    ensures var n := Run(Start(SEATED_EVENT), ORDERED_ONCE);
      && Ready(n, 5, 1) && n.now == 0 && n.orders == [Ordered(Orders.PENDING)] && n.store == Payments.EMPTY && n.releasing == map[]
      && n.tokens == [TokensOf(Inputs(1))] && n.venue.holds == map[KEY := Hold(1, ORDER_HOLD_TTL_SECONDS)]
      && AllowedRun(Start(SEATED_EVENT), ORDERED_ONCE)
  {
    var s := Start(SEATED_EVENT);
    HoldRun();
    FirstPlaceAllowed();
    RunConcat(s, HELD_ONCE, Place(1));
    PlaceRun(Run(s, HELD_ONCE), 5, 1);
    OnlyOneHold();
    hide Next, Run, AllowedRun;
    AllowedConcat(s, HELD_ONCE, Place(1));
  }

  lemma OnlyOneHold()
    ensures Run(Start(SEATED_EVENT), HELD_ONCE).venue.holds[KEY := Hold(1, ORDER_HOLD_TTL_SECONDS)] == map[KEY := Hold(1, ORDER_HOLD_TTL_SECONDS)]
  {
    Extend(Start(SEATED_EVENT), [], HELD_ONCE[0]);
    assert [] + HELD_ONCE == HELD_ONCE;
  }

  lemma FirstPlaceAllowed()
    ensures AllowedRun(Start(SEATED_EVENT), HELD_ONCE) && AllowedRun(Run(Start(SEATED_EVENT), HELD_ONCE), Place(1))
  {
    HoldRun();
    var held := Run(Start(SEATED_EVENT), HELD_ONCE);
    hide Next, Run;
    forall o: Id, i: nat ensures !Behind(held, o, i, 1) { assert held.tokens == []; }
    PlacingIsAllowed(held, 5, 1);
  }

  /** The first order's seat counts, its token stands behind it, and its hold is claimed. */
  lemma FirstSeatCounts(w: World)
    requires w.orders == [Ordered(Orders.PENDING)] && w.tokens == [TokensOf(Inputs(1))] && Version(w, 7) == Some(5) && w.venue.sold == map[]
    ensures LiveSeat(w, 0, 0) && Behind(w, 0, 0, 1) && Claimed(w, KEY)
    ensures w.releasing == map[] ==> BehindNothing(w, 2)
  {
    assert TokensOf(Inputs(1)) == [Some(1)];
    assert ItemClaims(w, 0, 0) && ItemKey(w, 0, 0) == KEY;
    forall o: Id, i: nat ensures !Behind(w, o, i, 2) {}
  }

  /** From a world with two unpaid orders for the seat, both can be paid. */
  lemma BothPaid(s: World, placed: seq<Step>, v: Id, token: Token)
    requires var w := Run(s, placed);
      Ready(w, v, token) && w.orders == [Ordered(Orders.PENDING), Ordered(Orders.PENDING)] && w.store == Payments.EMPTY
    ensures SoldTwice(Run(s, placed + PayFor(0) + PayFor(1)))
  {
    hide Next, Run, PayFor, Exclusive;
    RunConcat(s, placed, PayFor(0));
    PayRun(Run(s, placed), v, token, 0);
    RunConcat(s, placed + PayFor(0), PayFor(1));
    PayRun(Run(s, placed + PayFor(0)), v, token, 1);
    BothConfirmed(Run(s, placed + PayFor(0) + PayFor(1)));
  }

  /** Without (H3), one step: the same buyer submits the same held seat twice; both orders are paid. */
  lemma OneTokenCanSellTwice()
    ensures var steps := ORDERED_ONCE + Place(1) + PayFor(0) + PayFor(1);
      && SoldTwice(Run(Start(SEATED_EVENT), steps)) && steps[8] == Step.Create(0, SaveOrder(ITEMS, 0, None))
      && OnlyBreak(Start(SEATED_EVENT), steps, 8)
  {
    var s := Start(SEATED_EVENT);
    OrderedOnce();
    var once := Run(s, ORDERED_ONCE);
    RunConcat(s, ORDERED_ONCE, Place(1));
    PlaceRun(once, 5, 1);
    BothPaid(s, ORDERED_ONCE + Place(1), 5, 1);
    SecondSaveBreaks();
  }

  const BEFORE_SECOND_SAVE: seq<Step> := ORDERED_ONCE + Place(1)[..3]

  lemma BeforeSecondSave()
    ensures AllowedRun(Start(SEATED_EVENT), BEFORE_SECOND_SAVE)
    ensures !Allowed(Run(Start(SEATED_EVENT), BEFORE_SECOND_SAVE), Place(1)[3])
  {
    var s := Start(SEATED_EVENT);
    OrderedOnce();
    var once := Run(s, ORDERED_ONCE);
    QuietSteps(once, 1);
    PlacingRuns(once, 5, 1);
    RunConcat(s, ORDERED_ONCE, Place(1)[..3]);
    TakenTokenIsRefused(Placing(once, 5, 1), once);
    hide AllowedRun, Allowed, Run, Next, Placing;
    AllowedConcat(s, ORDERED_ONCE, Place(1)[..3]);
  }

  lemma SecondSaveBreaks()
    ensures OnlyBreak(Start(SEATED_EVENT), ORDERED_ONCE + Place(1) + PayFor(0) + PayFor(1), 8)
  {
    hide AllowedRun, Allowed, OnlyBreak, Run, Next, PayFor;
    BeforeSecondSave();
    BothPaymentsAllowed(Run(Start(SEATED_EVENT), BEFORE_SECOND_SAVE + [Place(1)[3]]));
    BreakAt(Start(SEATED_EVENT), ORDERED_ONCE + Place(1) + PayFor(0) + PayFor(1), BEFORE_SECOND_SAVE, Place(1)[3], PayFor(0) + PayFor(1));
  }

  lemma TakenTokenIsRefused(ready: World, once: World)
    requires once.orders == [Ordered(Orders.PENDING)] && once.tokens == [TokensOf(Inputs(1))] && Version(once, 7) == Some(5) && once.venue.sold == map[]
    requires ready == Placing(once, 5, 1)
    ensures !Allowed(ready, Place(1)[3])
  {
    FirstSeatCounts(ready);
    assert TokensOf(Inputs(1)) == [Some(1)];
    assert InputToken(ready.creating[0], 0, 1);
  }

  const LAPSED: seq<Step> := ORDERED_ONCE + [Tick(ORDER_HOLD_TTL_SECONDS), Buyer(BuyerHold(KEY, 2))]

  lemma LapseRun()
    ensures var n := Run(Start(SEATED_EVENT), LAPSED);
      && Ready(n, 5, 2) && n.orders == [Ordered(Orders.PENDING)] && n.store == Payments.EMPTY && n.releasing == map[]
      && n.tokens == [TokensOf(Inputs(1))]
  {
    OrderedOnce();
    Pair(Start(SEATED_EVENT), ORDERED_ONCE, Tick(ORDER_HOLD_TTL_SECONDS), Buyer(BuyerHold(KEY, 2)));
    hide Run, AllowedRun;
  }

  /** Another buyer, who holds the seat on version `v`, orders it as well, and both orders are paid. */
  lemma SecondOrder(before: seq<Step>, v: Id)
    requires var n := Run(Start(SEATED_EVENT), before);
      && Ready(n, v, 2) && n.orders == [Ordered(Orders.PENDING)] && n.store == Payments.EMPTY && n.releasing == map[]
      && n.tokens == [TokensOf(Inputs(1))]
    ensures SoldTwice(Run(Start(SEATED_EVENT), before + Place(2) + PayFor(0) + PayFor(1)))
    ensures AllowedRun(Run(Start(SEATED_EVENT), before), Place(2) + (PayFor(0) + PayFor(1)))
  {
    var s := Start(SEATED_EVENT);
    var n := Run(s, before);
    NotBehind(n);
    hide BehindNothing;
    RunConcat(s, before, Place(2));
    PlaceRun(n, v, 2);
    BothPaid(s, before + Place(2), v, 2);
    PlacingIsAllowed(n, v, 2);
    BothPaymentsAllowed(Run(n, Place(2)));
    hide AllowedRun, SoldTwice, Run, Next;
    AllowedConcat(n, Place(2), PayFor(0) + PayFor(1));
  }

  lemma NotBehind(n: World)
    requires n.tokens == [TokensOf(Inputs(1))]
    ensures BehindNothing(n, 2)
  {
    assert TokensOf(Inputs(1)) == [Some(1)];
  }

  lemma HoldingIsAllowed(w: World, key: SeatKey, token: Token)
    ensures AllowedRun(w, [Buyer(BuyerHold(key, token))])
  {
    hide Run, Next;
  }

  /** A step that is refused after the first order, then the other buyer's hold, order and payments. */
  lemma BreakAfterOrder(step: Step, v: Id)
    requires !Allowed(Run(Start(SEATED_EVENT), ORDERED_ONCE), step) && AllowedRun(Start(SEATED_EVENT), ORDERED_ONCE)
    requires var n := Run(Start(SEATED_EVENT), ORDERED_ONCE + [step, Buyer(BuyerHold(KeyOn(v), 2))]);
      && Ready(n, v, 2) && n.orders == [Ordered(Orders.PENDING)] && n.store == Payments.EMPTY && n.releasing == map[]
      && n.tokens == [TokensOf(Inputs(1))]
    ensures var steps := ORDERED_ONCE + [step, Buyer(BuyerHold(KeyOn(v), 2))] + Place(2) + PayFor(0) + PayFor(1);
      steps[5] == step && SoldTwice(Run(Start(SEATED_EVENT), steps)) && OnlyBreak(Start(SEATED_EVENT), steps, 5)
  {
    hide *;
    var s, hold := Start(SEATED_EVENT), Buyer(BuyerHold(KeyOn(v), 2));
    var mid := Run(s, ORDERED_ONCE + [step]);
    var rest := Place(2) + (PayFor(0) + PayFor(1));
    SecondOrder(ORDERED_ONCE + [step, hold], v);
    HoldingIsAllowed(mid, KeyOn(v), 2);
    Extend(s, ORDERED_ONCE + [step], hold);
    Single(mid, hold);
    assert ORDERED_ONCE + [step] + [hold] == ORDERED_ONCE + [step, hold];
    AllowedConcat(mid, [hold], rest);
    FiveSteps();
    BreakAt(s, ORDERED_ONCE + [step, hold] + Place(2) + PayFor(0) + PayFor(1), ORDERED_ONCE, step, [hold] + rest);
  }

  /** With the first order in place, neither its hold may lapse nor its event move on. */
  lemma RefusedAfterOrder()
    ensures var once := Run(Start(SEATED_EVENT), ORDERED_ONCE);
      && AllowedRun(Start(SEATED_EVENT), ORDERED_ONCE)
      && !Allowed(once, Tick(ORDER_HOLD_TTL_SECONDS)) && !Allowed(once, EditEvent(7, Some(6)))
  {
    OrderedOnce();
    FirstSeatCounts(Run(Start(SEATED_EVENT), ORDERED_ONCE));
    hide AllowedRun, Run, Next;
  }

  lemma FiveSteps()
    ensures |ORDERED_ONCE| == 5
  {
  }

  /** Without (H2), one step: the first order's hold lapses while its payment is pending, another buyer
      takes the seat, and both pay. */
  lemma LapsedHoldsCanSellTwice()
    ensures var steps := LAPSED + Place(2) + PayFor(0) + PayFor(1);
      && SoldTwice(Run(Start(SEATED_EVENT), steps)) && steps[5] == Tick(ORDER_HOLD_TTL_SECONDS)
      && OnlyBreak(Start(SEATED_EVENT), steps, 5)
  {
    hide AllowedRun, Allowed, OnlyBreak, SoldTwice, Run, Next, PayFor, Place, Ordered, Inputs;
    RefusedAfterOrder();
    LapseRun();
    BreakAfterOrder(Tick(ORDER_HOLD_TTL_SECONDS), 5);
  }

  const REVISED: seq<Step> := ORDERED_ONCE + [EditEvent(7, Some(6)), Buyer(BuyerHold(KeyOn(6), 2))]

  lemma RevisedRun()
    ensures var n := Run(Start(SEATED_EVENT), REVISED);
      && Ready(n, 6, 2) && n.orders == [Ordered(Orders.PENDING)] && n.store == Payments.EMPTY && n.releasing == map[]
      && n.tokens == [TokensOf(Inputs(1))]
  {
    OrderedOnce();
    Pair(Start(SEATED_EVENT), ORDERED_ONCE, EditEvent(7, Some(6)), Buyer(BuyerHold(KeyOn(6), 2)));
    hide Run, AllowedRun;
    assert SEATED_EVENT[7 := Some(6)] == map[7 := Some(6)];
  }

  /** Without (H1), one step: the event moves to a new version of its map while an order is pending, the
      seat is free there, another buyer takes it, and both pay. */
  lemma RevisedMapsCanSellTwice()
    ensures var steps := REVISED + Place(2) + PayFor(0) + PayFor(1);
      && SoldTwice(Run(Start(SEATED_EVENT), steps)) && steps[5] == EditEvent(7, Some(6))
      && OnlyBreak(Start(SEATED_EVENT), steps, 5)
  {
    hide AllowedRun, Allowed, OnlyBreak, SoldTwice, Run, Next, PayFor, Place, Ordered, Inputs;
    RefusedAfterOrder();
    RevisedRun();
    BreakAfterOrder(EditEvent(7, Some(6)), 6);
  }
}
