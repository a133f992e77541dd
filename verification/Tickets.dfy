/** Lazy ticket creation and door check-in, one database command a step: any number of
    getForOrder and checkIn calls interleave, and only the unique constraints order them. */
module Tickets {
  import opened Common

  datatype TicketStatus = ISSUED | CHECKED_IN

  datatype Item = Item(id: Id, tierId: Id, seatId: Option<Id>)
  datatype Order = Order(buyerId: Id, eventId: Id, items: seq<Item>)

  /** A tickets row; its id is its position in the table. */
  datatype Ticket = Ticket(
    orderId: Id, buyerId: Id, eventId: Id, item: Item, qrToken: nat,
    status: TicketStatus, checkedInAt: Option<int>, checkedInBy: Option<Id>)

  type Table = seq<Ticket>

  function FindItem(rows: Table, itemId: Id): (r: Option<nat>)
    ensures r.Some? ==> r.value < |rows| && rows[r.value].item.id == itemId
    ensures r.None? ==> forall k :: 0 <= k < |rows| ==> rows[k].item.id != itemId
  {
    if rows == [] then None
    else if rows[|rows| - 1].item.id == itemId then Some(|rows| - 1)
    else FindItem(rows[..|rows| - 1], itemId)
  }

  function FindToken(rows: Table, qrToken: nat): (r: Option<nat>)
    ensures r.Some? ==> r.value < |rows| && rows[r.value].qrToken == qrToken
    ensures r.None? ==> forall k :: 0 <= k < |rows| ==> rows[k].qrToken != qrToken
  {
    if rows == [] then None
    else if rows[|rows| - 1].qrToken == qrToken then Some(|rows| - 1)
    else FindToken(rows[..|rows| - 1], qrToken)
  }

  function Fresh(orderId: Id, order: Order, item: Item, qrToken: nat): Ticket {
    Ticket(orderId, order.buyerId, order.eventId, item, qrToken, ISSUED, None, None)
  }

  /** save(): refused by the unique order_item_id, and by the unique qr_token. */
  function Insert(rows: Table, ticket: Ticket): Option<Table> {
    if FindItem(rows, ticket.item.id).Some? || FindToken(rows, ticket.qrToken).Some? then None else Some(rows + [ticket])
  }

  /** find({ orderId }): the snapshot a call works from. */
  function Existing(rows: Table, orderId: Id): map<Id, nat> {
    map itemId | itemId in ItemIds(rows) && FindOwn(rows, orderId, itemId).Some? :: FindOwn(rows, orderId, itemId).value
  }

  function ItemIds(rows: Table): set<Id> {
    set t | t in rows :: t.item.id
  }

  function FindOwn(rows: Table, orderId: Id, itemId: Id): (r: Option<nat>)
    ensures r.Some? ==> r.value < |rows| && rows[r.value].item.id == itemId && rows[r.value].orderId == orderId
  {
    if rows == [] then None
    else if rows[|rows| - 1].item.id == itemId && rows[|rows| - 1].orderId == orderId then Some(|rows| - 1)
    else FindOwn(rows[..|rows| - 1], orderId, itemId)
  }

  /** A getForOrder call that has seen its order CONFIRMED; `out` are the tickets collected so far. */
  datatype Caller =
    | Fetched(orderId: Id)
    | Looping(orderId: Id, existing: map<Id, nat>, next: nat, out: seq<nat>)
    | Refetching(orderId: Id, existing: map<Id, nat>, next: nat, out: seq<nat>)
    | Done(orderId: Id, out: seq<nat>)

  /** A checkIn call holding the row it has read. */
  datatype Door = Door(ticketId: nat, status: TicketStatus)

  datatype State = State(rows: Table, callers: map<Id, Caller>, doors: map<Id, Door>, admitted: seq<nat>)

  const EMPTY := State([], map[], map[], [])

  datatype Step =
    | Begin(call: Id, orderId: Id)
    | FindExisting(call: Id)
    | Turn(call: Id, qrToken: nat, fails: bool)
    | Refetch(call: Id)
    | ScanRead(door: Id, qrToken: nat)
    | ScanSave(door: Id, staffId: Id, now: int)

  function ItemTurn(st: State, order: Order, call: Id, c: Caller, qrToken: nat, fails: bool): State
    requires c.Looping? && c.next < |order.items|
  {
    var item := order.items[c.next];
    if item.id in c.existing then
      st.(callers := st.callers[call := Looping(c.orderId, c.existing, c.next + 1, c.out + [c.existing[item.id]])])
    else
      var saved := if fails then None else Insert(st.rows, Fresh(c.orderId, order, item, qrToken));
      match saved
      case Some(rows) =>
        st.(rows := rows, callers := st.callers[call := Looping(c.orderId, c.existing, c.next + 1, c.out + [|st.rows|])])
      case None => st.(callers := st.callers[call := Refetching(c.orderId, c.existing, c.next, c.out)])
  }

  function AdoptWinner(st: State, order: Order, call: Id, c: Caller): State
    requires c.Refetching? && c.next < |order.items|
  {
    var winner := FindItem(st.rows, order.items[c.next].id);
    var out := if winner.Some? then c.out + [winner.value] else c.out;
    st.(callers := st.callers[call := Looping(c.orderId, c.existing, c.next + 1, out)])
  }

  function CallerStep(orders: map<Id, Order>, st: State, step: Step, call: Id): State {
    if call !in st.callers || st.callers[call].orderId !in orders then st
    else
      var c := st.callers[call];
      var order := orders[c.orderId];
      match (step, c)
      case (FindExisting(_), Fetched(o)) =>
        st.(callers := st.callers[call := Looping(o, Existing(st.rows, o), 0, [])])
      case (Turn(_, qrToken, fails), Looping(o, existing, next, out)) =>
        if next < |order.items| then ItemTurn(st, order, call, c, qrToken, fails)
        else st.(callers := st.callers[call := Done(o, out)])
      case (Refetch(_), Refetching(_, _, next, _)) => if next < |order.items| then AdoptWinner(st, order, call, c) else st
      case _ => st
  }

  function CheckedIn(ticket: Ticket, staffId: Id, now: int): Ticket {
    ticket.(status := CHECKED_IN, checkedInAt := Some(now), checkedInBy := Some(staffId))
  }

  function DoorStep(st: State, step: Step): State
    requires step.ScanRead? || step.ScanSave?
  {
    match step
    case ScanRead(door, qrToken) =>
      var found := FindToken(st.rows, qrToken);
      if door in st.doors || found.None? then st
      else st.(doors := st.doors[door := Door(found.value, st.rows[found.value].status)])
    case ScanSave(door, staffId, now) =>
      if door !in st.doors then st
      else
        var d := st.doors[door];
        if d.status == CHECKED_IN || d.ticketId >= |st.rows| then st.(doors := st.doors - {door})
        else State(st.rows[d.ticketId := CheckedIn(st.rows[d.ticketId], staffId, now)], st.callers, st.doors - {door},
                   st.admitted + [d.ticketId])
  }

  function Next(orders: map<Id, Order>, st: State, step: Step): State {
    match step
    case Begin(call, o) => if call in st.callers then st else st.(callers := st.callers[call := Fetched(o)])
    case FindExisting(call) => CallerStep(orders, st, step, call)
    case Turn(call, _, _) => CallerStep(orders, st, step, call)
    case Refetch(call) => CallerStep(orders, st, step, call)
    case _ => DoorStep(st, step)
  }

  function Run(orders: map<Id, Order>, steps: seq<Step>): State
    decreases |steps|
  {
    if steps == [] then EMPTY else Next(orders, Run(orders, steps[..|steps| - 1]), steps[|steps| - 1])
  }

  // ----- What every interleaving keeps -----

  /** At most one ticket an item, and one a token. */
  ghost predicate Unique(rows: Table) {
    && (forall a, b :: 0 <= a < b < |rows| ==> rows[a].item.id != rows[b].item.id)
    && (forall a, b :: 0 <= a < b < |rows| ==> rows[a].qrToken != rows[b].qrToken)
  }

  /** Rows are only added; a ticket's identity never changes. */
  ghost predicate Extends(before: Table, after: Table) {
    && |before| <= |after|
    && forall k :: 0 <= k < |before| ==> after[k].item == before[k].item && after[k].qrToken == before[k].qrToken
  }

  ghost predicate Matches(rows: Table, items: seq<Item>, out: seq<nat>) {
    |out| <= |items| && forall j :: 0 <= j < |out| ==> out[j] < |rows| && rows[out[j]].item.id == items[j].id
  }

  ghost predicate SnapshotOk(rows: Table, existing: map<Id, nat>) {
    forall itemId :: itemId in existing ==> existing[itemId] < |rows| && rows[existing[itemId]].item.id == itemId
  }

  /** After `passed` items: no more tickets than that, all of existing rows; if as many, one an item, in order. */
  ghost predicate Collected(rows: Table, items: seq<Item>, passed: nat, out: seq<nat>) {
    && |out| <= passed <= |items|
    && (forall j :: 0 <= j < |out| ==> out[j] < |rows|)
    && (|out| == passed ==> Matches(rows, items, out))
  }

  ghost predicate CallerOk(rows: Table, order: Order, c: Caller) {
    match c
    case Fetched(_) => true
    case Done(_, out) => Collected(rows, order.items, |order.items|, out)
    case Looping(_, existing, next, out) => SnapshotOk(rows, existing) && Collected(rows, order.items, next, out)
    case Refetching(_, existing, next, out) =>
      SnapshotOk(rows, existing) && next < |order.items| && Collected(rows, order.items, next, out)
  }

  ghost predicate Inv(orders: map<Id, Order>, st: State) {
    && Unique(st.rows)
    && forall call :: call in st.callers && st.callers[call].orderId in orders ==>
         CallerOk(st.rows, orders[st.callers[call].orderId], st.callers[call])
  }

  lemma CallerOkExtends(before: Table, after: Table, order: Order, c: Caller)
    requires Extends(before, after) && CallerOk(before, order, c)
    ensures CallerOk(after, order, c)
  {
  }

  /** Only one caller, and perhaps the table, has moved. */
  lemma OthersKeep(orders: map<Id, Order>, st: State, n: State, call: Id)
    requires Inv(orders, st) && Extends(st.rows, n.rows) && Unique(n.rows)
    requires forall c :: c in n.callers && c != call ==> c in st.callers && n.callers[c] == st.callers[c]
    requires call in n.callers && n.callers[call].orderId in orders ==>
      CallerOk(n.rows, orders[n.callers[call].orderId], n.callers[call])
    ensures Inv(orders, n)
  {
    forall c | c in n.callers && n.callers[c].orderId in orders && c != call
      ensures CallerOk(n.rows, orders[n.callers[c].orderId], n.callers[c])
    {
      CallerOkExtends(st.rows, n.rows, orders[n.callers[c].orderId], n.callers[c]);
    }
  }

  lemma TurnKeeps(orders: map<Id, Order>, st: State, call: Id, qrToken: nat, fails: bool)
    requires Inv(orders, st) && call in st.callers && st.callers[call].Looping? && st.callers[call].orderId in orders
    requires st.callers[call].next < |orders[st.callers[call].orderId].items|
    ensures var n := ItemTurn(st, orders[st.callers[call].orderId], call, st.callers[call], qrToken, fails);
      Inv(orders, n) && Extends(st.rows, n.rows)
  {
    var c := st.callers[call];
    var order := orders[c.orderId];
    var n := ItemTurn(st, order, call, c, qrToken, fails);
    assert CallerOk(st.rows, order, c);
    ItemTurnOk(st, order, call, c, qrToken, fails);
    OthersKeep(orders, st, n, call);
  }

  lemma ItemTurnOk(st: State, order: Order, call: Id, c: Caller, qrToken: nat, fails: bool)
    requires Unique(st.rows) && c.Looping? && c.next < |order.items| && CallerOk(st.rows, order, c)
    ensures var n := ItemTurn(st, order, call, c, qrToken, fails);
      && Extends(st.rows, n.rows) && Unique(n.rows) && n.callers == st.callers[call := n.callers[call]]
      && n.callers[call].orderId == c.orderId && CallerOk(n.rows, order, n.callers[call])
  {
    var item := order.items[c.next];
    if item.id !in c.existing && !fails {
      var ticket := Fresh(c.orderId, order, item, qrToken);
      if Insert(st.rows, ticket).Some? {
        InsertKeepsUnique(st.rows, ticket);
        CallerOkExtends(st.rows, st.rows + [ticket], order, c);
      }
    }
  }

  lemma InsertKeepsUnique(rows: Table, ticket: Ticket)
    requires Unique(rows) && Insert(rows, ticket).Some?
    ensures Unique(rows + [ticket]) && Extends(rows, rows + [ticket])
  {
  }

  lemma CallerKeeps(orders: map<Id, Order>, st: State, step: Step, call: Id)
    requires Inv(orders, st)
    ensures Inv(orders, CallerStep(orders, st, step, call)) && Extends(st.rows, CallerStep(orders, st, step, call).rows)
  {
    if call in st.callers && st.callers[call].orderId in orders {
      var c := st.callers[call];
      var order := orders[c.orderId];
      var n := CallerStep(orders, st, step, call);
      if step.Turn? && c.Looping? && c.next < |order.items| {
        TurnKeeps(orders, st, call, step.qrToken, step.fails);
      } else {
        QuietTurn(orders, st, step, call);
        OthersKeep(orders, st, n, call);
      }
    }
  }

  lemma CollectedMore(rows: Table, items: seq<Item>, passed: nat, out: seq<nat>)
    requires Collected(rows, items, passed, out) && passed < |items|
    ensures Collected(rows, items, passed + 1, out)
    ensures forall t: nat :: t < |rows| && rows[t].item.id == items[passed].id ==> Collected(rows, items, passed + 1, out + [t])
  {
  }

  lemma AdoptOk(st: State, order: Order, call: Id, c: Caller)
    requires c.Refetching? && c.next < |order.items| && CallerOk(st.rows, order, c)
    ensures var n := AdoptWinner(st, order, call, c);
      && n == st.(callers := st.callers[call := n.callers[call]])
      && n.callers[call].orderId == c.orderId && CallerOk(st.rows, order, n.callers[call])
  {
    CollectedMore(st.rows, order.items, c.next, c.out);
    hide Collected, SnapshotOk;
  }

  lemma ExistingIsSound(rows: Table, orderId: Id)
    ensures SnapshotOk(rows, Existing(rows, orderId))
  {
  }

  /** The steps of a call that write no row. */
  lemma QuietTurn(orders: map<Id, Order>, st: State, step: Step, call: Id)
    requires Inv(orders, st) && call in st.callers && st.callers[call].orderId in orders
    requires !(step.Turn? && st.callers[call].Looping? && st.callers[call].next < |orders[st.callers[call].orderId].items|)
    ensures var n := CallerStep(orders, st, step, call);
      && call in n.callers && n == st.(callers := st.callers[call := n.callers[call]])
      && n.callers[call].orderId == st.callers[call].orderId
      && CallerOk(st.rows, orders[st.callers[call].orderId], n.callers[call])
  {
    var c := st.callers[call];
    var order := orders[c.orderId];
    assert CallerOk(st.rows, order, c);
    assert st.callers[call := c] == st.callers;
    match (step, c)
    case (FindExisting(_), Fetched(o)) => ExistingIsSound(st.rows, o);
    case (Refetch(_), Refetching(_, _, next, _)) => AdoptOk(st, order, call, c);
    case _ =>
  }

  lemma NextKeeps(orders: map<Id, Order>, st: State, step: Step)
    requires Inv(orders, st)
    ensures Inv(orders, Next(orders, st, step)) && Extends(st.rows, Next(orders, st, step).rows)
  {
    match step
    case Begin(call, o) => OthersKeep(orders, st, Next(orders, st, step), call);
    case FindExisting(call) => CallerKeeps(orders, st, step, call);
    case Turn(call, qrToken, fails) => CallerKeeps(orders, st, step, call);
    case Refetch(call) => CallerKeeps(orders, st, step, call);
    case _ =>
      var n := DoorStep(st, step);
      assert Extends(st.rows, n.rows) && |n.rows| == |st.rows|;
      forall c | c in n.callers && n.callers[c].orderId in orders
        ensures CallerOk(n.rows, orders[n.callers[c].orderId], n.callers[c])
      {
        CallerOkExtends(st.rows, n.rows, orders[n.callers[c].orderId], n.callers[c]);
      }
  }

  lemma {:induction false} RunKeeps(orders: map<Id, Order>, steps: seq<Step>)
    ensures Inv(orders, Run(orders, steps))
    decreases |steps|
  {
    if steps != [] {
      RunKeeps(orders, steps[..|steps| - 1]);
      NextKeeps(orders, Run(orders, steps[..|steps| - 1]), steps[|steps| - 1]);
    }
  }

  lemma {:induction false} RowsOnlyGrow(orders: map<Id, Order>, steps: seq<Step>, i: nat)
    requires i <= |steps|
    ensures Extends(Run(orders, steps[..i]).rows, Run(orders, steps).rows)
    decreases |steps|
  {
    if i < |steps| {
      var most := steps[..|steps| - 1];
      RowsOnlyGrow(orders, most, i);
      assert most[..i] == steps[..i];
      RunKeeps(orders, most);
      NextKeeps(orders, Run(orders, most), steps[|steps| - 1]);
    } else {
      assert steps[..i] == steps;
    }
  }

  /** The call has completed with a ticket for every item of its order. */
  predicate Complete(orders: map<Id, Order>, st: State, call: Id) {
    && call in st.callers && st.callers[call].Done? && st.callers[call].orderId in orders
    && |st.callers[call].out| == |orders[st.callers[call].orderId].items|
  }

  /** Lazy creation is race-safe: in every interleaving an item has at most one ticket, and every
      completed call with as many tickets as items returns them in item order, with the very
      ids and QR tokens any other such call returned, then or earlier. */
  lemma LazyCreationIsRaceSafe(orders: map<Id, Order>, steps: seq<Step>, i: nat, first: Id, second: Id)
    requires i <= |steps|
    requires Complete(orders, Run(orders, steps[..i]), first) && Complete(orders, Run(orders, steps), second)
    requires Run(orders, steps).callers[second].orderId == Run(orders, steps[..i]).callers[first].orderId
    ensures var before, after := Run(orders, steps[..i]), Run(orders, steps);
      var mine, theirs := before.callers[first], after.callers[second];
      && Unique(after.rows)
      && mine.out == theirs.out && |mine.out| == |orders[mine.orderId].items|
      && forall j :: 0 <= j < |mine.out| ==>
           && mine.out[j] < |before.rows| <= |after.rows|
           && after.rows[mine.out[j]].item.id == orders[mine.orderId].items[j].id
           && after.rows[mine.out[j]].qrToken == before.rows[mine.out[j]].qrToken
  {
    var before, after := Run(orders, steps[..i]), Run(orders, steps);
    RunKeeps(orders, steps[..i]);
    RunKeeps(orders, steps);
    RowsOnlyGrow(orders, steps, i);
    var mine, theirs := before.callers[first], after.callers[second];
    assert CallerOk(before.rows, orders[mine.orderId], mine) && CallerOk(after.rows, orders[theirs.orderId], theirs);
    forall j | 0 <= j < |mine.out| ensures mine.out[j] == theirs.out[j] {
      assert after.rows[mine.out[j]].item.id == after.rows[theirs.out[j]].item.id;
    }
  }

  // ----- When a call loses an item -----

  ghost predicate HasTicket(rows: Table, itemId: Id) {
    exists k :: 0 <= k < |rows| && rows[k].item.id == itemId
  }

  /** The call comes back from a failed save, and no row of the item is there to adopt. */
  ghost predicate FindsNothing(orders: map<Id, Order>, st: State, step: Step, call: Id) {
    && step == Refetch(call) && call in st.callers && st.callers[call].Refetching? && st.callers[call].orderId in orders
    && st.callers[call].next < |orders[st.callers[call].orderId].items|
    && !HasTicket(st.rows, orders[st.callers[call].orderId].items[st.callers[call].next].id)
  }

  /** How many items the call is past. */
  function Passed(order: Order, c: Caller): nat {
    match c
    case Fetched(_) => 0
    case Looping(_, _, next, _) => next
    case Refetching(_, _, next, _) => next
    case Done(_, _) => |order.items|
  }

  /** The call has fewer tickets than the items it is past. */
  predicate Short(orders: map<Id, Order>, st: State, call: Id) {
    && call in st.callers && st.callers[call].orderId in orders && !st.callers[call].Fetched?
    && |st.callers[call].out| < Passed(orders[st.callers[call].orderId], st.callers[call])
  }

  lemma OthersStay(orders: map<Id, Order>, st: State, step: Step, call: Id)
    requires step.ScanRead? || step.ScanSave? || step.call != call
    ensures var n := Next(orders, st, step);
      (call in n.callers <==> call in st.callers) && (call in st.callers ==> n.callers[call] == st.callers[call])
  {
  }

  lemma LossStep(orders: map<Id, Order>, st: State, step: Step, call: Id)
    requires Inv(orders, st)
    ensures Short(orders, Next(orders, st, step), call) <==> Short(orders, st, call) || FindsNothing(orders, st, step, call)
  {
    hide Matches, SnapshotOk, Existing;
    if step.ScanRead? || step.ScanSave? || step.call != call {
      hide Next;
      OthersStay(orders, st, step, call);
    } else if call in st.callers && st.callers[call].orderId in orders {
      hide ItemTurn;
      var c := st.callers[call];
      var order := orders[c.orderId];
      assert CallerOk(st.rows, order, c);
      if step.Refetch? && c.Refetching? { FoundIsTicket(st.rows, order.items[c.next].id); }
      if step.Turn? && c.Looping? && c.next < |order.items| { TurnPushes(st, order, call, c, step.qrToken, step.fails); }
    }
  }

  /** Step `k` of the run is such a moment. */
  ghost predicate LosesAt(orders: map<Id, Order>, steps: seq<Step>, k: nat, call: Id)
    requires k < |steps|
  {
    FindsNothing(orders, Run(orders, steps[..k]), steps[k], call)
  }

  lemma LossPrefix(orders: map<Id, Order>, steps: seq<Step>, call: Id)
    requires steps != []
    ensures var most := steps[..|steps| - 1];
      (exists k :: 0 <= k < |steps| && LosesAt(orders, steps, k, call))
      <==> (exists k :: 0 <= k < |most| && LosesAt(orders, most, k, call)) || LosesAt(orders, steps, |steps| - 1, call)
  {
    var most := steps[..|steps| - 1];
    forall k | 0 <= k < |most| ensures LosesAt(orders, most, k, call) <==> LosesAt(orders, steps, k, call) { assert most[..k] == steps[..k]; }
  }

  lemma {:induction false} ShortExactly(orders: map<Id, Order>, steps: seq<Step>, call: Id)
    ensures Short(orders, Run(orders, steps), call) <==> exists k :: 0 <= k < |steps| && LosesAt(orders, steps, k, call)
    decreases |steps|
  {
    if steps != [] {
      var most := steps[..|steps| - 1];
      ShortExactly(orders, most, call);
      LossPrefix(orders, steps, call);
      RunKeeps(orders, most);
      LossStep(orders, Run(orders, most), steps[|steps| - 1], call);
    }
  }

  /** Exactly when a completed call answers with fewer tickets than its order has items: one of its
      saves failed and, when it looked again, the item still had no row. It never answers with more. */
  lemma LostExactly(orders: map<Id, Order>, steps: seq<Step>, call: Id)
    requires var callers := Run(orders, steps).callers;
      call in callers && callers[call].Done? && callers[call].orderId in orders
    ensures var c := Run(orders, steps).callers[call];
      && |c.out| <= |orders[c.orderId].items|
      && (|c.out| < |orders[c.orderId].items| <==> exists k :: 0 <= k < |steps| && LosesAt(orders, steps, k, call))
  {
    ShortExactly(orders, steps, call);
    RunKeeps(orders, steps);
    var c := Run(orders, steps).callers[call];
    assert CallerOk(Run(orders, steps).rows, orders[c.orderId], c);
  }

  lemma FoundIsTicket(rows: Table, itemId: Id)
    ensures FindItem(rows, itemId).Some? <==> HasTicket(rows, itemId)
  {
  }

  // ----- Which item is missing -----

  ghost predicate Answers(rows: Table, out: seq<nat>, itemId: Id) {
    exists x :: 0 <= x < |out| && out[x] < |rows| && rows[out[x]].item.id == itemId
  }

  predicate DistinctItems(items: seq<Item>) {
    forall a, b :: 0 <= a < b < |items| ==> items[a].id != items[b].id
  }

  /** The call is past item `j` without a ticket for it. */
  ghost predicate Misses(orders: map<Id, Order>, st: State, call: Id, j: nat) {
    && call in st.callers && st.callers[call].orderId in orders && !st.callers[call].Fetched?
    && j < Passed(orders[st.callers[call].orderId], st.callers[call]) && j < |orders[st.callers[call].orderId].items|
    && !Answers(st.rows, st.callers[call].out, orders[st.callers[call].orderId].items[j].id)
  }

  ghost predicate FindsNothingFor(orders: map<Id, Order>, st: State, step: Step, call: Id, j: nat) {
    FindsNothing(orders, st, step, call) && st.callers[call].next == j
  }

  lemma AnswersExtend(before: Table, after: Table, out: seq<nat>, itemId: Id)
    requires Extends(before, after) && forall x :: 0 <= x < |out| ==> out[x] < |before|
    ensures Answers(after, out, itemId) <==> Answers(before, out, itemId)
  {
    if Answers(after, out, itemId) {
      var x :| 0 <= x < |out| && out[x] < |after| && after[out[x]].item.id == itemId;
      assert before[out[x]].item.id == itemId;
    }
    if Answers(before, out, itemId) {
      var x :| 0 <= x < |out| && out[x] < |before| && before[out[x]].item.id == itemId;
      assert after[out[x]].item.id == itemId;
    }
  }

  lemma AnswersSnoc(rows: Table, out: seq<nat>, t: nat, itemId: Id)
    requires t < |rows|
    ensures Answers(rows, out + [t], itemId) <==> Answers(rows, out, itemId) || rows[t].item.id == itemId
  {
    if Answers(rows, out, itemId) {
      var x :| 0 <= x < |out| && out[x] < |rows| && rows[out[x]].item.id == itemId;
      assert (out + [t])[x] == out[x];
    }
    assert (out + [t])[|out|] == t;
  }

  /** One turn of the loop: a ticket of this very item is pushed, or the call will look again. */
  lemma TurnPushes(st: State, order: Order, call: Id, c: Caller, qrToken: nat, fails: bool)
    requires Unique(st.rows) && c.Looping? && c.next < |order.items| && CallerOk(st.rows, order, c)
    ensures var n := ItemTurn(st, order, call, c, qrToken, fails);
      || n == st.(callers := st.callers[call := Refetching(c.orderId, c.existing, c.next, c.out)])
      || (n.callers[call].Looping? && n.callers[call].next == c.next + 1 && Extends(st.rows, n.rows)
          && exists t: nat :: n.callers[call].out == c.out + [t] && t < |n.rows| && n.rows[t].item.id == order.items[c.next].id)
  {
    ItemTurnOk(st, order, call, c, qrToken, fails);
    var item := order.items[c.next];
    var n := ItemTurn(st, order, call, c, qrToken, fails);
    if item.id in c.existing {
      assert n.callers[call].out == c.out + [c.existing[item.id]];
    } else if n.callers[call].Looping? {
      assert n.callers[call].out == c.out + [|st.rows|];
    }
  }

  lemma PushedOne(before: Table, after: Table, items: seq<Item>, out: seq<nat>, t: nat, next: nat, j: nat)
    requires Extends(before, after) && DistinctItems(items) && next < |items| && j < |items|
    requires forall x :: 0 <= x < |out| ==> out[x] < |before|
    requires t < |after| && after[t].item.id == items[next].id
    ensures Answers(after, out + [t], items[j].id) <==> Answers(before, out, items[j].id) || j == next
  {
    AnswersSnoc(after, out, t, items[j].id);
    AnswersExtend(before, after, out, items[j].id);
  }

  lemma OwnStepMisses(orders: map<Id, Order>, st: State, step: Step, call: Id, j: nat)
    requires Inv(orders, st) && call in st.callers && st.callers[call].orderId in orders && step.Turn?
    requires DistinctItems(orders[st.callers[call].orderId].items) && step.call == call
    ensures Misses(orders, Next(orders, st, step), call, j) <==> Misses(orders, st, call, j)
  {
    var c := st.callers[call];
    var order := orders[c.orderId];
    assert CallerOk(st.rows, order, c);
    if c.Looping? && c.next < |order.items| {
      TurnPushes(st, order, call, c, step.qrToken, step.fails);
      var n := ItemTurn(st, order, call, c, step.qrToken, step.fails);
      if n.callers[call].Looping? && j < |order.items| {
        var t: nat :| n.callers[call].out == c.out + [t] && t < |n.rows| && n.rows[t].item.id == order.items[c.next].id;
        PushedOne(st.rows, n.rows, order.items, c.out, t, c.next, j);
      }
    }
  }

  lemma RefetchMisses(orders: map<Id, Order>, st: State, call: Id, j: nat)
    requires Inv(orders, st) && call in st.callers && st.callers[call].orderId in orders
    requires DistinctItems(orders[st.callers[call].orderId].items)
    ensures Misses(orders, Next(orders, st, Refetch(call)), call, j)
      <==> Misses(orders, st, call, j) || FindsNothingFor(orders, st, Refetch(call), call, j)
  {
    var c := st.callers[call];
    var order := orders[c.orderId];
    assert CallerOk(st.rows, order, c);
    if c.Refetching? {
      var itemId := order.items[c.next].id;
      FoundIsTicket(st.rows, itemId);
      if j < |order.items| {
        if HasTicket(st.rows, itemId) { PushedOne(st.rows, st.rows, order.items, c.out, FindItem(st.rows, itemId).value, c.next, j); }
        else if j == c.next { NeverAnswered(st.rows, c.out, itemId); }
      }
    }
  }

  lemma NeverAnswered(rows: Table, out: seq<nat>, itemId: Id)
    requires !HasTicket(rows, itemId)
    ensures !Answers(rows, out, itemId)
  {
  }

  lemma OtherStepMisses(orders: map<Id, Order>, st: State, step: Step, call: Id, j: nat)
    requires Inv(orders, st) && step != Refetch(call) && !(step.Turn? && step.call == call)
    ensures Misses(orders, Next(orders, st, step), call, j) <==> Misses(orders, st, call, j)
  {
    NextKeeps(orders, st, step);
    var n := Next(orders, st, step);
    if call in st.callers && st.callers[call].orderId in orders && !st.callers[call].Fetched? {
      var order := orders[st.callers[call].orderId];
      assert CallerOk(st.rows, order, st.callers[call]) && n.callers[call] == st.callers[call];
      if j < |order.items| { AnswersExtend(st.rows, n.rows, st.callers[call].out, order.items[j].id); }
    }
  }

  lemma MissStep(orders: map<Id, Order>, st: State, step: Step, call: Id, j: nat)
    requires Inv(orders, st) && forall o :: o in orders ==> DistinctItems(orders[o].items)
    ensures Misses(orders, Next(orders, st, step), call, j)
      <==> Misses(orders, st, call, j) || FindsNothingFor(orders, st, step, call, j)
  {
    if call !in st.callers || st.callers[call].orderId !in orders {
      if step == Refetch(call) || (step.Turn? && step.call == call) { assert Next(orders, st, step) == st; } else { OtherStepMisses(orders, st, step, call, j); }
    } else if step == Refetch(call) { RefetchMisses(orders, st, call, j); }
    else if step.Turn? && step.call == call { OwnStepMisses(orders, st, step, call, j); }
    else { OtherStepMisses(orders, st, step, call, j); }
  }

  ghost predicate MissesAt(orders: map<Id, Order>, steps: seq<Step>, k: nat, call: Id, j: nat)
    requires k < |steps|
  {
    FindsNothingFor(orders, Run(orders, steps[..k]), steps[k], call, j)
  }

  lemma MissPrefix(orders: map<Id, Order>, steps: seq<Step>, call: Id, j: nat)
    requires steps != []
    ensures var most := steps[..|steps| - 1];
      (exists k :: 0 <= k < |steps| && MissesAt(orders, steps, k, call, j))
      <==> (exists k :: 0 <= k < |most| && MissesAt(orders, most, k, call, j)) || MissesAt(orders, steps, |steps| - 1, call, j)
  {
    var most := steps[..|steps| - 1];
    forall k | 0 <= k < |most| ensures MissesAt(orders, most, k, call, j) <==> MissesAt(orders, steps, k, call, j) { assert most[..k] == steps[..k]; }
  }

  lemma {:induction false} RunMisses(orders: map<Id, Order>, steps: seq<Step>, call: Id, j: nat)
    requires forall o :: o in orders ==> DistinctItems(orders[o].items)
    ensures Misses(orders, Run(orders, steps), call, j) <==> exists k :: 0 <= k < |steps| && MissesAt(orders, steps, k, call, j)
    decreases |steps|
  {
    if steps != [] {
      var most := steps[..|steps| - 1];
      RunMisses(orders, most, call, j);
      MissPrefix(orders, steps, call, j);
      RunKeeps(orders, most);
      MissStep(orders, Run(orders, most), steps[|steps| - 1], call, j);
    }
  }

  /** Which items a completed answer lacks: exactly those whose save failed while no other call had
      made their ticket by the time this one looked again. */
  lemma MissingExactly(orders: map<Id, Order>, steps: seq<Step>, call: Id, j: nat)
    requires forall o :: o in orders ==> DistinctItems(orders[o].items)
    requires var callers := Run(orders, steps).callers;
      call in callers && callers[call].Done? && callers[call].orderId in orders && j < |orders[callers[call].orderId].items|
    ensures var st := Run(orders, steps);
      !Answers(st.rows, st.callers[call].out, orders[st.callers[call].orderId].items[j].id)
      <==> exists k :: 0 <= k < |steps| && MissesAt(orders, steps, k, call, j)
  {
    RunMisses(orders, steps, call, j);
  }

  // ----- A run that loses an item -----

  /** The call's save of each item fails, `n` items on. */
  function FailingTurns(call: Id, n: nat): seq<Step> {
    if n == 0 then [Turn(call, 0, true)] else [Turn(call, 0, true), Refetch(call)] + FailingTurns(call, n - 1)
  }

  lemma TwoMore(orders: map<Id, Order>, steps: seq<Step>, a: Step, b: Step)
    ensures Run(orders, steps + [a]) == Next(orders, Run(orders, steps), a)
    ensures Run(orders, steps + [a, b]) == Next(orders, Next(orders, Run(orders, steps), a), b)
  {
    assert (steps + [a])[..|steps|] == steps && (steps + [a, b])[..|steps| + 1] == steps + [a];
  }

  lemma NextFailing(steps: seq<Step>, call: Id, n: nat)
    ensures steps + FailingTurns(call, n)
      == if n == 0 then steps + [Turn(call, 0, true)] else steps + [Turn(call, 0, true), Refetch(call)] + FailingTurns(call, n - 1)
  {
  }

  lemma FailingTurn(orders: map<Id, Order>, st: State, call: Id)
    requires call in st.callers && st.callers[call].Looping? && st.callers[call].orderId in orders
    ensures var c := st.callers[call];
      var n := Next(orders, st, Turn(call, 0, true));
      var m := Next(orders, n, Refetch(call));
      if c.next < |orders[c.orderId].items|
      then call in m.callers && m.callers[call].Looping? && m.callers[call].orderId == c.orderId && m.callers[call].next == c.next + 1
      else call in n.callers && n.callers[call].Done? && n.callers[call].orderId == c.orderId
  {
  }

  lemma {:induction false} FailingTurnsEnd(orders: map<Id, Order>, steps: seq<Step>, call: Id, n: nat)
    requires var callers := Run(orders, steps).callers;
      call in callers && callers[call].Looping? && callers[call].orderId in orders
      && callers[call].next + n == |orders[callers[call].orderId].items|
    ensures var callers := Run(orders, steps + FailingTurns(call, n)).callers;
      call in callers && callers[call].Done? && callers[call].orderId == Run(orders, steps).callers[call].orderId
    decreases n
  {
    hide *;
    TwoMore(orders, steps, Turn(call, 0, true), Refetch(call));
    FailingTurn(orders, Run(orders, steps), call);
    NextFailing(steps, call, n);
    if n > 0 { FailingTurnsEnd(orders, steps + [Turn(call, 0, true), Refetch(call)], call, n - 1); }
  }

  /** In any run: a call stands before an item without a ticket, its save fails for another reason and
      nobody makes the ticket before it looks again. However the run goes on, it never answers with
      all its tickets, and it can go on to answer. */
  lemma FailedSaveLosesTheItem(orders: map<Id, Order>, steps: seq<Step>, call: Id, qrToken: nat, more: seq<Step>)
    requires var st := Run(orders, steps);
      && call in st.callers && st.callers[call].Looping? && st.callers[call].orderId in orders
      && var c := st.callers[call];
         var items := orders[c.orderId].items;
         c.next < |items| && items[c.next].id !in c.existing && !HasTicket(st.rows, items[c.next].id)
    ensures var lost := steps + [Turn(call, qrToken, true), Refetch(call)];
      !Complete(orders, Run(orders, lost + more), call)
      && exists rest :: Short(orders, Run(orders, lost + rest), call) && Run(orders, lost + rest).callers[call].Done?
  {
    hide *;
    var c := Run(orders, steps).callers[call];
    var n := |orders[c.orderId].items| - c.next - 1;
    GoesOnWithout(orders, steps, call, qrToken);
    FailingTurnsEnd(orders, steps + [Turn(call, qrToken, true), Refetch(call)], call, n);
    LostInEvery(orders, steps, call, qrToken, more);
    LostInEvery(orders, steps, call, qrToken, FailingTurns(call, n));
    ShortIsIncomplete(orders, Run(orders, steps + [Turn(call, qrToken, true), Refetch(call)] + more), call);
  }

  lemma ShortIsIncomplete(orders: map<Id, Order>, st: State, call: Id)
    requires Short(orders, st, call)
    ensures !Complete(orders, st, call)
  {
  }

  lemma GoesOnWithout(orders: map<Id, Order>, steps: seq<Step>, call: Id, qrToken: nat)
    requires var st := Run(orders, steps);
      && call in st.callers && st.callers[call].Looping? && st.callers[call].orderId in orders
      && var c := st.callers[call];
         var items := orders[c.orderId].items;
         c.next < |items| && items[c.next].id !in c.existing && !HasTicket(st.rows, items[c.next].id)
    ensures var c := Run(orders, steps).callers[call];
      var n := Run(orders, steps + [Turn(call, qrToken, true), Refetch(call)]);
      call in n.callers && n.callers[call] == Looping(c.orderId, c.existing, c.next + 1, c.out)
  {
    var st := Run(orders, steps);
    TwoMore(orders, steps, Turn(call, qrToken, true), Refetch(call));
    FoundIsTicket(st.rows, orders[st.callers[call].orderId].items[st.callers[call].next].id);
    hide Run, Unique;
  }

  lemma LostInEvery(orders: map<Id, Order>, steps: seq<Step>, call: Id, qrToken: nat, more: seq<Step>)
    requires var st := Run(orders, steps);
      && call in st.callers && st.callers[call].Looping? && st.callers[call].orderId in orders
      && var c := st.callers[call];
         var items := orders[c.orderId].items;
         c.next < |items| && items[c.next].id !in c.existing && !HasTicket(st.rows, items[c.next].id)
    ensures Short(orders, Run(orders, steps + [Turn(call, qrToken, true), Refetch(call)] + more), call)
  {
    var all := steps + [Turn(call, qrToken, true), Refetch(call)] + more;
    TwoMore(orders, steps, Turn(call, qrToken, true), Refetch(call));
    assert all[..|steps| + 1] == steps + [Turn(call, qrToken, true)];
    assert LosesAt(orders, all, |steps| + 1, call);
    ShortExactly(orders, all, call);
  }

  // ----- Runs that lose nothing -----

  /** save() can fail on the item's own constraint only: the database is up and the token unused. */
  predicate SavesCleanly(st: State, step: Step) {
    step.Turn? ==> !step.fails && FindToken(st.rows, step.qrToken).None?
  }

  /** Whoever looks again finds the row that refused its save. */
  ghost predicate WinnersExist(orders: map<Id, Order>, st: State) {
    forall call :: call in st.callers && st.callers[call].orderId in orders && st.callers[call].Refetching? ==>
      var c := st.callers[call];
      c.next < |orders[c.orderId].items| && HasTicket(st.rows, orders[c.orderId].items[c.next].id)
  }

  lemma TicketsStay(before: Table, after: Table, itemId: Id)
    requires Extends(before, after) && HasTicket(before, itemId)
    ensures HasTicket(after, itemId)
  {
    var k :| 0 <= k < |before| && before[k].item.id == itemId;
    assert after[k].item.id == itemId;
  }

  lemma CleanStepKeepsWinners(orders: map<Id, Order>, st: State, step: Step)
    requires Inv(orders, st) && WinnersExist(orders, st) && SavesCleanly(st, step)
    ensures WinnersExist(orders, Next(orders, st, step))
  {
    var n := Next(orders, st, step);
    NextKeeps(orders, st, step);
    forall call | call in n.callers && n.callers[call].orderId in orders && n.callers[call].Refetching?
      ensures var c := n.callers[call]; c.next < |orders[c.orderId].items| && HasTicket(n.rows, orders[c.orderId].items[c.next].id)
    {
      if call in st.callers && n.callers[call] == st.callers[call] {
        TicketsStay(st.rows, n.rows, orders[st.callers[call].orderId].items[st.callers[call].next].id);
      } else {
        RefusedByTheItem(orders, st, step, call);
      }
    }
  }

  lemma RefusedByTheItem(orders: map<Id, Order>, st: State, step: Step, call: Id)
    requires SavesCleanly(st, step) && call in Next(orders, st, step).callers
    requires var c := Next(orders, st, step).callers[call]; c.Refetching? && c.orderId in orders && !(call in st.callers && c == st.callers[call])
    ensures var n := Next(orders, st, step);
      var c := n.callers[call];
      c.next < |orders[c.orderId].items| && HasTicket(n.rows, orders[c.orderId].items[c.next].id)
  {
    assert step.Turn? && step.call == call;
    var c := st.callers[call];
    FoundIsTicket(st.rows, orders[c.orderId].items[c.next].id);
  }

  lemma {:induction false} CleanRunsKeepWinners(orders: map<Id, Order>, steps: seq<Step>)
    requires forall k :: 0 <= k < |steps| ==> SavesCleanly(Run(orders, steps[..k]), steps[k])
    ensures WinnersExist(orders, Run(orders, steps))
    decreases |steps|
  {
    if steps != [] {
      var most := steps[..|steps| - 1];
      forall k | 0 <= k < |most| ensures SavesCleanly(Run(orders, most[..k]), most[k]) { assert most[..k] == steps[..k]; }
      CleanRunsKeepWinners(orders, most);
      RunKeeps(orders, most);
      assert steps[..|most|] == most;
      CleanStepKeepsWinners(orders, Run(orders, most), steps[|steps| - 1]);
    }
  }

  /** While saves fail on the item's constraint only, every completed call answers with one ticket an item. */
  lemma CleanRunsLoseNothing(orders: map<Id, Order>, steps: seq<Step>, call: Id)
    requires forall k :: 0 <= k < |steps| ==> SavesCleanly(Run(orders, steps[..k]), steps[k])
    requires var callers := Run(orders, steps).callers;
      call in callers && callers[call].Done? && callers[call].orderId in orders
    ensures Complete(orders, Run(orders, steps), call)
  {
    forall k | 0 <= k < |steps| ensures !LosesAt(orders, steps, k, call) {
      forall i | 0 <= i < k ensures SavesCleanly(Run(orders, steps[..k][..i]), steps[..k][i]) { assert steps[..k][..i] == steps[..i]; }
      CleanRunsKeepWinners(orders, steps[..k]);
    }
    LostExactly(orders, steps, call);
  }

  // ----- Check-in -----

  /** A ticket is admitted a second time. */
  ghost predicate Twice(admitted: seq<nat>) {
    exists a, b :: 0 <= a < b < |admitted| && admitted[a] == admitted[b]
  }

  /** A door that has read ISSUED saves onto a row that is CHECKED_IN by now. */
  predicate Blind(st: State, step: Step) {
    && step.ScanSave? && step.door in st.doors && st.doors[step.door].status == ISSUED
    && st.doors[step.door].ticketId < |st.rows| && st.rows[st.doors[step.door].ticketId].status == CHECKED_IN
  }

  /** A row reads CHECKED_IN exactly when its ticket has been admitted, and doors hold existing rows. */
  ghost predicate DoorsOk(st: State) {
    && (forall d :: d in st.doors ==> st.doors[d].ticketId < |st.rows|)
    && (forall t :: t in st.admitted ==> t < |st.rows|)
    && (forall t :: 0 <= t < |st.rows| ==> (st.rows[t].status == CHECKED_IN <==> t in st.admitted))
  }

  lemma TwiceSnoc(admitted: seq<nat>, t: nat)
    ensures Twice(admitted + [t]) <==> Twice(admitted) || t in admitted
  {
    if Twice(admitted) {
      var a, b :| 0 <= a < b < |admitted| && admitted[a] == admitted[b];
      assert (admitted + [t])[a] == (admitted + [t])[b];
    }
    if t in admitted {
      var a :| 0 <= a < |admitted| && admitted[a] == t;
      assert (admitted + [t])[a] == (admitted + [t])[|admitted|];
    }
  }

  lemma DoorStepKeeps(st: State, step: Step)
    requires DoorsOk(st) && (step.ScanRead? || step.ScanSave?)
    ensures var n := DoorStep(st, step);
      DoorsOk(n) && (Twice(n.admitted) <==> Twice(st.admitted) || Blind(st, step))
  {
    var n := DoorStep(st, step);
    if n.admitted != st.admitted {
      var id := st.doors[step.door].ticketId;
      assert n.admitted == st.admitted + [id];
      TwiceSnoc(st.admitted, id);
      assert forall t :: t in n.admitted <==> t in st.admitted || t == id;
    }
  }

  lemma GetKeepsDoors(orders: map<Id, Order>, st: State, step: Step)
    requires DoorsOk(st) && !step.ScanRead? && !step.ScanSave?
    ensures var n := Next(orders, st, step); DoorsOk(n) && n.admitted == st.admitted && n.doors == st.doors
  {
    var n := Next(orders, st, step);
    assert n.doors == st.doors && n.admitted == st.admitted && st.rows <= n.rows;
    assert forall t :: |st.rows| <= t < |n.rows| ==> n.rows[t].status == ISSUED;
  }

  lemma DoorsMove(orders: map<Id, Order>, st: State, step: Step)
    requires DoorsOk(st)
    ensures var n := Next(orders, st, step);
      DoorsOk(n) && (Twice(n.admitted) <==> Twice(st.admitted) || Blind(st, step))
  {
    if step.ScanRead? || step.ScanSave? { DoorStepKeeps(st, step); } else { GetKeepsDoors(orders, st, step); }
  }

  lemma {:induction false} RunKeepsDoors(orders: map<Id, Order>, steps: seq<Step>)
    ensures DoorsOk(Run(orders, steps))
    decreases |steps|
  {
    if steps != [] {
      RunKeepsDoors(orders, steps[..|steps| - 1]);
      DoorsMove(orders, Run(orders, steps[..|steps| - 1]), steps[|steps| - 1]);
    }
  }

  /** Step `k` of the run is such a save. */
  ghost predicate BlindAt(orders: map<Id, Order>, steps: seq<Step>, k: nat)
    requires k < |steps|
  {
    Blind(Run(orders, steps[..k]), steps[k])
  }

  lemma BlindPrefix(orders: map<Id, Order>, steps: seq<Step>)
    requires steps != []
    ensures var most := steps[..|steps| - 1];
      (exists k :: 0 <= k < |steps| && BlindAt(orders, steps, k))
      <==> (exists k :: 0 <= k < |most| && BlindAt(orders, most, k)) || BlindAt(orders, steps, |steps| - 1)
  {
    var most := steps[..|steps| - 1];
    forall k | 0 <= k < |most| ensures BlindAt(orders, most, k) <==> BlindAt(orders, steps, k) { assert most[..k] == steps[..k]; }
  }

  /** Exactly when a ticket is admitted twice: some door saves its ISSUED reading onto a row that
      another door has checked in since. */
  lemma {:induction false} AdmittedTwiceExactly(orders: map<Id, Order>, steps: seq<Step>)
    ensures Twice(Run(orders, steps).admitted) <==> exists k :: 0 <= k < |steps| && BlindAt(orders, steps, k)
    decreases |steps|
  {
    if steps != [] {
      var most := steps[..|steps| - 1];
      AdmittedTwiceExactly(orders, most);
      RunKeepsDoors(orders, most);
      BlindPrefix(orders, steps);
      DoorsMove(orders, Run(orders, most), steps[|steps| - 1]);
    }
  }

  /** A door reads a ticket while another that read it ISSUED is still to save it. */
  ghost predicate Overlaps(st: State, step: Step) {
    step.ScanRead? && exists d :: d in st.doors && d != step.door && st.doors[d].status == ISSUED
                                  && FindToken(st.rows, step.qrToken) == Some(st.doors[d].ticketId)
  }

  predicate Holds(st: State, door: Id, t: nat) {
    door in st.doors && st.doors[door] == Door(t, ISSUED)
  }

  /** A door that has read ISSUED holds its ticket alone, and the row still says so. */
  ghost predicate Alone(st: State) {
    && (forall d :: d in st.doors && st.doors[d].status == ISSUED ==>
          st.doors[d].ticketId < |st.rows| && st.rows[st.doors[d].ticketId].status == ISSUED)
    && (forall d, e, t :: Holds(st, d, t) && Holds(st, e, t) ==> d == e)
  }

  lemma ReadStaysAlone(st: State, step: Step)
    requires DoorsOk(st) && Alone(st) && step.ScanRead? && !Overlaps(st, step)
    ensures Alone(DoorStep(st, step))
  {
    var n := DoorStep(st, step);
    forall d, e, t | Holds(n, d, t) && Holds(n, e, t) ensures d == e {
      assert d != step.door ==> Holds(st, d, t);
      assert e != step.door ==> Holds(st, e, t);
    }
  }

  lemma SaveStaysAlone(st: State, step: Step)
    requires DoorsOk(st) && Alone(st) && step.ScanSave?
    ensures Alone(DoorStep(st, step)) && !Blind(st, step)
  {
    var n := DoorStep(st, step);
    forall d | d in n.doors && n.doors[d].status == ISSUED ensures n.rows[n.doors[d].ticketId].status == ISSUED {
      assert Holds(st, d, n.doors[d].ticketId);
      assert step.door in st.doors && st.doors[step.door].status == ISSUED ==> Holds(st, step.door, st.doors[step.door].ticketId);
    }
    forall d, e, t | Holds(n, d, t) && Holds(n, e, t) ensures d == e { assert Holds(st, d, t) && Holds(st, e, t); }
  }

  lemma AloneStays(orders: map<Id, Order>, st: State, step: Step)
    requires DoorsOk(st) && Alone(st) && !Overlaps(st, step)
    ensures Alone(Next(orders, st, step)) && !Blind(st, step)
  {
    match step
    case ScanRead(_, _) => ReadStaysAlone(st, step);
    case ScanSave(_, _, _) => SaveStaysAlone(st, step);
    case _ =>
      var n := Next(orders, st, step);
      GetKeepsDoors(orders, st, step);
      assert st.rows <= n.rows;
      assert forall d, t :: Holds(n, d, t) <==> Holds(st, d, t);
  }

  lemma {:induction false} AloneInRuns(orders: map<Id, Order>, steps: seq<Step>)
    requires forall k :: 0 <= k < |steps| ==> !Overlaps(Run(orders, steps[..k]), steps[k])
    ensures Alone(Run(orders, steps)) && !Twice(Run(orders, steps).admitted)
    decreases |steps|
  {
    if steps != [] {
      var most := steps[..|steps| - 1];
      forall k | 0 <= k < |most| ensures !Overlaps(Run(orders, most[..k]), most[k]) { assert most[..k] == steps[..k]; }
      AloneInRuns(orders, most);
      RunKeepsDoors(orders, most);
      AloneStays(orders, Run(orders, most), steps[|steps| - 1]);
      DoorsMove(orders, Run(orders, most), steps[|steps| - 1]);
    }
  }

  /** No ticket is admitted twice as long as no door reads a ticket while another door that read it
      ISSUED is still to save it; scans of a used ticket may overlap freely. */
  lemma AdmittedOnce(orders: map<Id, Order>, steps: seq<Step>)
    requires forall k :: 0 <= k < |steps| ==> !Overlaps(Run(orders, steps[..k]), steps[k])
    ensures !Twice(Run(orders, steps).admitted)
  {
    AloneInRuns(orders, steps);
  }

  // ----- Every overlap that is saved twice admits twice -----

  lemma HoldsUntilSaved(orders: map<Id, Order>, st: State, step: Step, door: Id, t: nat)
    requires Holds(st, door, t) && !(step.ScanSave? && step.door == door)
    ensures Holds(Next(orders, st, step), door, t)
  {
    if !step.ScanRead? && !step.ScanSave? { assert Next(orders, st, step).doors == st.doors; }
  }

  /** A door's reading stands until the door itself saves. */
  lemma {:induction false} StillHolds(orders: map<Id, Order>, steps: seq<Step>, i: nat, door: Id, t: nat)
    requires i <= |steps| && Holds(Run(orders, steps[..i]), door, t)
    requires forall k :: i <= k < |steps| ==> !(steps[k].ScanSave? && steps[k].door == door)
    ensures Holds(Run(orders, steps), door, t)
    decreases |steps|
  {
    if i == |steps| {
      assert steps[..i] == steps;
    } else {
      var most := steps[..|steps| - 1];
      assert most[..i] == steps[..i];
      StillHolds(orders, most, i, door, t);
      HoldsUntilSaved(orders, Run(orders, most), steps[|steps| - 1], door, t);
    }
  }

  lemma AdmittedStays(orders: map<Id, Order>, steps: seq<Step>, i: nat, t: nat)
    requires i <= |steps| && t in Run(orders, steps[..i]).admitted
    ensures t in Run(orders, steps).admitted
    decreases |steps|
  {
    if i == |steps| {
      assert steps[..i] == steps;
    } else {
      var most := steps[..|steps| - 1];
      assert most[..i] == steps[..i];
      AdmittedStays(orders, most, i, t);
      AdmissionsGrow(orders, Run(orders, most), steps[|steps| - 1]);
    }
  }

  lemma AdmissionsGrow(orders: map<Id, Order>, st: State, step: Step)
    ensures st.admitted <= Next(orders, st, step).admitted
  {
    if !step.ScanRead? && !step.ScanSave? { assert Next(orders, st, step).admitted == st.admitted; }
  }

  /** Two doors that have read one ticket ISSUED, in any interleaving with anything else: as soon as
      both have saved, the ticket has been admitted twice. Here `first` saves at j, `second` later at k. */
  lemma OverlapAdmitsTwice(orders: map<Id, Order>, steps: seq<Step>, i: nat, j: nat, k: nat, first: Id, second: Id, t: nat)
    requires i <= j < k < |steps| && first != second
    requires Holds(Run(orders, steps[..i]), first, t) && Holds(Run(orders, steps[..i]), second, t)
    requires steps[j].ScanSave? && steps[j].door == first && steps[k].ScanSave? && steps[k].door == second
    requires forall x :: i <= x < j ==> !(steps[x].ScanSave? && steps[x].door == first)
    requires forall x :: i <= x < k ==> !(steps[x].ScanSave? && steps[x].door == second)
    ensures BlindAt(orders, steps, k) && Twice(Run(orders, steps).admitted)
  {
    FirstSaveAdmits(orders, steps, i, j, first, t);
    assert steps[..k][..i] == steps[..i] && steps[..k][..j + 1] == steps[..j + 1];
    StillHolds(orders, steps[..k], i, second, t);
    AdmittedStays(orders, steps[..k], j + 1, t);
    RunKeepsDoors(orders, steps[..k]);
    BlindSave(Run(orders, steps[..k]), steps[k], t);
    assert BlindAt(orders, steps, k);
    AdmittedTwiceExactly(orders, steps);
  }

  lemma FirstSaveAdmits(orders: map<Id, Order>, steps: seq<Step>, i: nat, j: nat, first: Id, t: nat)
    requires i <= j < |steps| && Holds(Run(orders, steps[..i]), first, t) && steps[j].ScanSave? && steps[j].door == first
    requires forall x :: i <= x < j ==> !(steps[x].ScanSave? && steps[x].door == first)
    ensures t in Run(orders, steps[..j + 1]).admitted
  {
    assert steps[..j][..i] == steps[..i] && steps[..j + 1][..j] == steps[..j];
    StillHolds(orders, steps[..j], i, first, t);
    RunKeepsDoors(orders, steps[..j]);
    SavingAdmits(Run(orders, steps[..j]), steps[j], t);
  }

  lemma BlindSave(st: State, step: Step, t: nat)
    requires DoorsOk(st) && step.ScanSave? && Holds(st, step.door, t) && t in st.admitted
    ensures Blind(st, step)
  {
  }

  lemma SavingAdmits(st: State, step: Step, t: nat)
    requires DoorsOk(st) && step.ScanSave? && Holds(st, step.door, t)
    ensures t in DoorStep(st, step).admitted
  {
  }

  // ----- Exactly the overlaps admit twice -----

  predicate SavesBy(step: Step, door: Id) {
    step.ScanSave? && step.door == door
  }

  /** Both doors hold their ISSUED reading of the ticket when the first saves, at `j`; the second is
      still to save. */
  ghost predicate FirstOfTwo(orders: map<Id, Order>, steps: seq<Step>, j: nat, first: Id, second: Id, t: nat) {
    && j < |steps| && first != second && SavesBy(steps[j], first)
    && Holds(Run(orders, steps[..j]), first, t) && Holds(Run(orders, steps[..j]), second, t)
    && forall x :: j <= x < |steps| ==> !SavesBy(steps[x], second)
  }

  /** Both doors have read the ticket ISSUED before either saved, and the second saves at `k`. */
  ghost predicate BothSave(orders: map<Id, Order>, steps: seq<Step>, j: nat, k: nat, first: Id, second: Id, t: nat) {
    k < |steps| && SavesBy(steps[k], second) && FirstOfTwo(orders, steps[..k], j, first, second, t)
  }

  lemma FirstOfTwoExtends(orders: map<Id, Order>, steps: seq<Step>, j: nat, first: Id, second: Id, t: nat)
    requires steps != [] && !SavesBy(steps[|steps| - 1], second)
    requires FirstOfTwo(orders, steps[..|steps| - 1], j, first, second, t)
    ensures FirstOfTwo(orders, steps, j, first, second, t)
  {
    assert steps[..|steps| - 1][..j] == steps[..j];
  }

  /** A door that holds an ISSUED reading of a row that is CHECKED_IN by now: nothing has changed since
      the step, or another door has just saved the ticket, or the reading was stale before. */
  lemma StaleStep(orders: map<Id, Order>, st: State, step: Step, second: Id, t: nat)
    requires DoorsOk(st) && Holds(Next(orders, st, step), second, t)
    requires t < |Next(orders, st, step).rows| && Next(orders, st, step).rows[t].status == CHECKED_IN
    ensures Holds(st, second, t) && !SavesBy(step, second) && t < |st.rows|
    ensures st.rows[t].status == CHECKED_IN || (step.ScanSave? && step.door != second && Holds(st, step.door, t))
  {
    if !step.ScanRead? && !step.ScanSave? {
      GetKeepsDoors(orders, st, step);
      assert st.rows <= Next(orders, st, step).rows;
    }
  }

  lemma {:induction false} StaleReading(orders: map<Id, Order>, steps: seq<Step>, second: Id, t: nat)
    requires var st := Run(orders, steps); Holds(st, second, t) && t < |st.rows| && st.rows[t].status == CHECKED_IN
    ensures exists j: nat, first: Id :: FirstOfTwo(orders, steps, j, first, second, t)
    decreases |steps|
  {
    var most, last := steps[..|steps| - 1], steps[|steps| - 1];
    RunKeepsDoors(orders, most);
    StaleStep(orders, Run(orders, most), last, second, t);
    if Run(orders, most).rows[t].status == CHECKED_IN {
      StaleReading(orders, most, second, t);
      var j: nat, first: Id :| FirstOfTwo(orders, most, j, first, second, t);
      FirstOfTwoExtends(orders, steps, j, first, second, t);
    } else {
      assert FirstOfTwo(orders, steps, |most|, last.door, second, t);
    }
  }

  /** In every run a ticket is admitted twice if and only if two doors have read it ISSUED before
      either saved, and both have saved. */
  lemma OverlapsDecide(orders: map<Id, Order>, steps: seq<Step>)
    ensures Twice(Run(orders, steps).admitted)
      <==> exists j: nat, k: nat, first: Id, second: Id, t: nat :: BothSave(orders, steps, j, k, first, second, t)
  {
    AdmittedTwiceExactly(orders, steps);
    if k: nat :| k < |steps| && BlindAt(orders, steps, k) {
      var second, t := steps[k].door, Run(orders, steps[..k]).doors[steps[k].door].ticketId;
      StaleReading(orders, steps[..k], second, t);
      var j: nat, first: Id :| FirstOfTwo(orders, steps[..k], j, first, second, t);
      assert BothSave(orders, steps, j, k, first, second, t);
    }
    if j: nat, k: nat, first: Id, second: Id, t: nat :| BothSave(orders, steps, j, k, first, second, t) {
      assert steps[..k][..j] == steps[..j];
      forall x | j <= x < k ensures !(steps[x].ScanSave? && steps[x].door == second) { assert steps[..k][x] == steps[x]; }
      OverlapAdmitsTwice(orders, steps, j, j, k, first, second, t);
    }
  }
}
