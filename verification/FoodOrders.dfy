/** The food-order service's tables and calls, taken one at a time; WaiterRace.dfy interleaves
    the waiter's calls command by command. */
module FoodOrders {
  import opened Common
  import SeatMaps
  import TableStatus
  import Venue

  const EDIT_CUTOFF_MS := 120 * 60000

  datatype FoodStatus = RECEIVED | PREPARING | READY | SERVED
  datatype Source = PRE_ORDER | WAITER

  /** A food_pre_orders row, named by its position; a ticket is an order item of the order service. */
  datatype FoodOrder = FoodOrder(
    ticketId: Option<Id>, eventId: Id, restaurantId: Id, buyerId: Option<Id>, seatId: Option<Id>, tableId: Option<Id>,
    waiterId: Option<Id>, clientRequestId: Option<Id>, source: Source, status: FoodStatus)

  /** A food_pre_order_items row. */
  datatype Line = Line(foodOrderId: Id, dish: Dish)
  datatype Dish = Dish(menuItemId: Id, name: string, quantity: int, notes: Option<string>, price: int)

  datatype Store = Store(orders: seq<FoodOrder>, lines: seq<Line>)
  const EMPTY := Store([], [])

  datatype Ticket = Ticket(id: Id, seatId: Option<Id>)
  datatype Order = Order(buyerId: Id, eventId: Id, called: bool, tickets: seq<Ticket>)  // called: CANCELLED or REFUNDED
  datatype Event = Event(restaurantId: Id, startsAt: int, versionId: Option<Id>)
  datatype MenuItem = MenuItem(id: Id, name: string, price: int, isAvailable: bool)

  /** What the other services answer during one call; a missing key is a failed fetch. `menus` are the
      flattened categories. */
  datatype Upstream = Upstream(
    orders: map<Id, Order>, events: map<Id, Event>, menus: map<Id, seq<MenuItem>>,
    snapshots: map<Id, SeatMaps.Snapshot>, venue: Option<Venue.VenueState>, now: int)

  datatype Input = Input(menuItemId: Id, quantity: int, notes: Option<string>)

  datatype FoodError =
    | OrderNotFound | OrderCalledOff | TicketNotFound | EventNotFound | EditingClosed | MenuUnavailable
    | NotOnMenu(menuItemId: Id) | NotAvailable(name: string)
    | Forbidden | NoTableMap | TableNotFound | VenueUnavailable | NotBooked | FoodOrderNotFound | DuplicateKey

  // ----- Menu resolution: names and prices are never the client's -----

  /** new Map(categories.flatMap(...)).get(id): the last entry of that id. */
  function Lookup(menu: seq<MenuItem>, id: Id): (r: Option<MenuItem>)
    ensures r.Some? ==> r.value in menu && r.value.id == id
    ensures r.None? ==> forall m :: m in menu ==> m.id != id
  {
    if menu == [] then None
    else if menu[|menu| - 1].id == id then Some(menu[|menu| - 1])
    else Lookup(menu[..|menu| - 1], id)
  }

  function ResolveOne(menu: seq<MenuItem>, input: Input): Result<Dish, FoodError> {
    match Lookup(menu, input.menuItemId)
    case None => Err(NotOnMenu(input.menuItemId))
    case Some(item) =>
      if !item.isAvailable then Err(NotAvailable(item.name))
      else Ok(Dish(item.id, item.name, input.quantity, input.notes, item.price))
  }

  function Resolve(menu: seq<MenuItem>, inputs: seq<Input>): Result<seq<Dish>, FoodError> {
    if inputs == [] then Ok([])
    else
      var before := Resolve(menu, inputs[..|inputs| - 1]);
      if before.Err? then before
      else
        var last := ResolveOne(menu, inputs[|inputs| - 1]);
        if last.Err? then Err(last.error) else Ok(before.value + [last.value])
  }

  function ResolveFrom(up: Upstream, restaurantId: Id, inputs: seq<Input>): Result<seq<Dish>, FoodError> {
    if restaurantId !in up.menus then Err(MenuUnavailable) else Resolve(up.menus[restaurantId], inputs)
  }

  /** Succeeds exactly when every input names an available item; dish by dish, the name and the
      price are the menu's and only the quantity and the notes are the client's. */
  lemma {:induction false} ResolvesAgainstTheMenu(menu: seq<MenuItem>, inputs: seq<Input>)
    ensures Resolve(menu, inputs).Ok? <==> forall j :: 0 <= j < |inputs| ==>
      Lookup(menu, inputs[j].menuItemId).Some? && Lookup(menu, inputs[j].menuItemId).value.isAvailable
    ensures Resolve(menu, inputs).Ok? ==>
      var dishes := Resolve(menu, inputs).value;
      && |dishes| == |inputs|
      && forall j :: 0 <= j < |inputs| ==>
           && dishes[j].quantity == inputs[j].quantity && dishes[j].notes == inputs[j].notes
           && MenuItem(inputs[j].menuItemId, dishes[j].name, dishes[j].price, true) in menu
  {
    if inputs != [] {
      var most := inputs[..|inputs| - 1];
      ResolvesAgainstTheMenu(menu, most);
      assert forall j :: 0 <= j < |most| ==> most[j] == inputs[j];
      var last := inputs[|inputs| - 1];
      if Lookup(menu, last.menuItemId).Some? {
        var item := Lookup(menu, last.menuItemId).value;
        assert item == MenuItem(last.menuItemId, item.name, item.price, item.isAvailable);
      }
    }
  }

  // ----- Lines -----

  function LinesOf(lines: seq<Line>, id: Id): seq<Dish> {
    if lines == [] then []
    else
      var before := LinesOf(lines[..|lines| - 1], id);
      if lines[|lines| - 1].foodOrderId == id then before + [lines[|lines| - 1].dish] else before
  }

  /** delete({ foodPreOrderId }). */
  function Without(lines: seq<Line>, id: Id): seq<Line> {
    if lines == [] then []
    else
      var before := Without(lines[..|lines| - 1], id);
      if lines[|lines| - 1].foodOrderId == id then before else before + [lines[|lines| - 1]]
  }

  function AsLines(id: Id, dishes: seq<Dish>): (r: seq<Line>)
    ensures |r| == |dishes| && forall j :: 0 <= j < |r| ==> r[j] == Line(id, dishes[j])
  {
    if dishes == [] then [] else AsLines(id, dishes[..|dishes| - 1]) + [Line(id, dishes[|dishes| - 1])]
  }

  // ----- submit() -----

  function FindTicket(tickets: seq<Ticket>, id: Id): Option<Ticket> {
    if tickets == [] then None else if tickets[0].id == id then Some(tickets[0]) else FindTicket(tickets[1..], id)
  }

  function FindByTicket(orders: seq<FoodOrder>, ticketId: Id): (r: Option<nat>)
    ensures r.Some? ==> r.value < |orders| && orders[r.value].ticketId == Some(ticketId)
    ensures r.None? ==> forall k :: 0 <= k < |orders| ==> orders[k].ticketId != Some(ticketId)
  {
    if orders == [] then None
    else if orders[|orders| - 1].ticketId == Some(ticketId) then Some(|orders| - 1)
    else FindByTicket(orders[..|orders| - 1], ticketId)
  }

  function TableOf(up: Upstream, event: Event, seatId: Option<Id>): Option<Id> {
    if seatId.None? || event.versionId.None? || event.versionId.value !in up.snapshots then None
    else
      var table := SeatMaps.FindTableForSeat(up.snapshots[event.versionId.value].tables, seatId.value);
      if table.Some? then Some(table.value.id) else None
  }

  /** The checks before anything is written. */
  function SubmitVerdict(up: Upstream, orderId: Id, ticketId: Id, inputs: seq<Input>): (r: Result<seq<Dish>, FoodError>)
    ensures r.Ok? ==> orderId in up.orders && FindTicket(up.orders[orderId].tickets, ticketId).Some?
                      && up.orders[orderId].eventId in up.events
  {
    if orderId !in up.orders then Err(OrderNotFound)
    else
      var order := up.orders[orderId];
      if order.called then Err(OrderCalledOff)
      else if FindTicket(order.tickets, ticketId).None? then Err(TicketNotFound)
      else if order.eventId !in up.events then Err(EventNotFound)
      else if up.now >= up.events[order.eventId].startsAt - EDIT_CUTOFF_MS then Err(EditingClosed)
      else ResolveFrom(up, up.events[order.eventId].restaurantId, inputs)
  }

  function Submit(st: Store, up: Upstream, orderId: Id, ticketId: Id, inputs: seq<Input>): (Store, Result<Id, FoodError>) {
    var verdict := SubmitVerdict(up, orderId, ticketId, inputs);
    if verdict.Err? then (st, Err(verdict.error))
    else
      var order := up.orders[orderId];
      var event := up.events[order.eventId];
      var seatId := FindTicket(order.tickets, ticketId).value.seatId;
      var tableId := TableOf(up, event, seatId);
      match FindByTicket(st.orders, ticketId)
      case Some(id) =>
        (Store(st.orders[id := st.orders[id].(seatId := seatId, tableId := tableId)],
               Without(st.lines, id) + AsLines(id, verdict.value)), Ok(id))
      case None =>
        var row := FoodOrder(Some(ticketId), order.eventId, event.restaurantId, Some(order.buyerId), seatId, tableId,
                             None, None, PRE_ORDER, RECEIVED);
        (Store(st.orders + [row], st.lines + AsLines(|st.orders|, verdict.value)), Ok(|st.orders|))
  }

  // ----- createWaiterOrder() -----

  function FindByKey(orders: seq<FoodOrder>, key: Id): (r: Option<nat>)
    ensures r.Some? ==> r.value < |orders| && orders[r.value].clientRequestId == Some(key)
    ensures r.None? ==> forall k :: 0 <= k < |orders| ==> orders[k].clientRequestId != Some(key)
  {
    if orders == [] then None
    else if orders[|orders| - 1].clientRequestId == Some(key) then Some(|orders| - 1)
    else FindByKey(orders[..|orders| - 1], key)
  }

  function FindTable(tables: seq<SeatMaps.TableSnapshot>, id: Id): (r: Option<nat>)
    ensures r.Some? ==> r.value < |tables| && tables[r.value].id == id
    ensures r.None? ==> forall t :: 0 <= t < |tables| ==> tables[t].id != id
  {
    if tables == [] then None
    else
      var before := FindTable(tables[..|tables| - 1], id);
      if before.Some? then before else if tables[|tables| - 1].id == id then Some(|tables| - 1) else None
  }

  /** BOOKED, which by the aggregate's description means that a seat reads SOLD. */
  predicate HasSoldSeat(venue: Venue.VenueState, versionId: Id, table: SeatMaps.TableSnapshot) {
    exists i :: 0 <= i < |table.seats| && Venue.SeatKey(versionId, table.seats[i].id) in venue.sold
  }

  datatype WaiterCall = WaiterCall(waiterId: Id, manages: set<Id>, eventId: Id, tableId: Id, inputs: seq<Input>, key: Option<Id>)

  function WaiterVerdict(up: Upstream, call: WaiterCall): Result<seq<Dish>, FoodError> {
    if call.eventId !in up.events then Err(EventNotFound)
    else
      var event := up.events[call.eventId];
      if event.restaurantId !in call.manages then Err(Forbidden)
      else if event.versionId.None? then Err(NoTableMap)
      else if event.versionId.value !in up.snapshots then Err(TableNotFound)
      else
        var tables := up.snapshots[event.versionId.value].tables;
        var t := FindTable(tables, call.tableId);
        if t.None? then Err(TableNotFound)
        else if up.venue.None? then Err(VenueUnavailable)
        else if !HasSoldSeat(up.venue.value, event.versionId.value, tables[t.value]) then Err(NotBooked)
        else ResolveFrom(up, event.restaurantId, call.inputs)
  }

  function WaiterRow(up: Upstream, call: WaiterCall): FoodOrder
    requires call.eventId in up.events
  {
    FoodOrder(None, call.eventId, up.events[call.eventId].restaurantId, None, None, Some(call.tableId),
              Some(call.waiterId), call.key, WAITER, RECEIVED)
  }

  function CreateWaiterOrder(st: Store, up: Upstream, call: WaiterCall): (Store, Result<Id, FoodError>) {
    if call.key.Some? && FindByKey(st.orders, call.key.value).Some?
    then (st, Ok(FindByKey(st.orders, call.key.value).value))
    else
      var verdict := WaiterVerdict(up, call);
      if verdict.Err? then (st, Err(verdict.error))
      else (Store(st.orders + [WaiterRow(up, call)], st.lines + AsLines(|st.orders|, verdict.value)), Ok(|st.orders|))
  }

  // ----- Kitchen status -----

  function UpdateById(st: Store, id: Id, status: FoodStatus, manages: set<Id>): (Store, Result<Id, FoodError>) {
    if id >= |st.orders| then (st, Err(FoodOrderNotFound))
    else if st.orders[id].restaurantId !in manages then (st, Err(Forbidden))
    else (st.(orders := st.orders[id := st.orders[id].(status := status)]), Ok(id))
  }

  function UpdateByTicket(st: Store, ticketId: Id, status: FoodStatus, manages: set<Id>): (Store, Result<Id, FoodError>) {
    match FindByTicket(st.orders, ticketId)
    case None => (st, Err(FoodOrderNotFound))
    case Some(id) => UpdateById(st, id, status, manages)
  }

  /** Row by row; the rows before the first failure stay updated. */
  function BulkUpdate(st: Store, ids: seq<Id>, status: FoodStatus, manages: set<Id>): (Store, Result<seq<Id>, FoodError>) {
    if ids == [] then (st, Ok([]))
    else
      var (before, done) := BulkUpdate(st, ids[..|ids| - 1], status, manages);
      if done.Err? then (before, done)
      else
        var (after, reply) := UpdateById(before, ids[|ids| - 1], status, manages);
        (after, if reply.Err? then Err(reply.error) else Ok(done.value + [reply.value]))
  }

  // ----- summaryForEvent() -----

  predicate Counts(orders: seq<FoodOrder>, line: Line, eventId: Id, menuItemId: Id, name: string) {
    && line.foodOrderId < |orders| && orders[line.foodOrderId].eventId == eventId
    && line.dish.menuItemId == menuItemId && line.dish.name == name
  }

  /** One group of the SQL aggregate: SUM(quantity) over the event's joined lines. */
  function Total(orders: seq<FoodOrder>, lines: seq<Line>, eventId: Id, menuItemId: Id, name: string): int {
    if lines == [] then 0
    else
      var last := lines[|lines| - 1];
      Total(orders, lines[..|lines| - 1], eventId, menuItemId, name)
      + (if Counts(orders, last, eventId, menuItemId, name) then last.dish.quantity else 0)
  }

  /** The quantity of one dish on one order. */
  function Quantity(dishes: seq<Dish>, menuItemId: Id, name: string): int {
    if dishes == [] then 0
    else
      var last := dishes[|dishes| - 1];
      Quantity(dishes[..|dishes| - 1], menuItemId, name)
      + (if last.menuItemId == menuItemId && last.name == name then last.quantity else 0)
  }

  // ----- Serial runs -----

  datatype Op =
    | SubmitOp(up: Upstream, orderId: Id, ticketId: Id, inputs: seq<Input>)
    | WaiterOp(up: Upstream, call: WaiterCall)
    | StatusOp(id: Id, status: FoodStatus, manages: set<Id>)
    | TicketStatusOp(ticketId: Id, status: FoodStatus, manages: set<Id>)
    | BulkOp(ids: seq<Id>, status: FoodStatus, manages: set<Id>)

  function Do(st: Store, op: Op): Store {
    match op
    case SubmitOp(up, orderId, ticketId, inputs) => Submit(st, up, orderId, ticketId, inputs).0
    case WaiterOp(up, call) => CreateWaiterOrder(st, up, call).0
    case StatusOp(id, status, manages) => UpdateById(st, id, status, manages).0
    case TicketStatusOp(ticketId, status, manages) => UpdateByTicket(st, ticketId, status, manages).0
    case BulkOp(ids, status, manages) => BulkUpdate(st, ids, status, manages).0
  }

  function Run(ops: seq<Op>): Store
    decreases |ops|
  {
    if ops == [] then EMPTY else Do(Run(ops[..|ops| - 1]), ops[|ops| - 1])
  }
}
