/** What serial runs of the food-order service keep: one pre-order a ticket, its lines the last
    submission's, and an aggregate that agrees with a recount. */
module FoodRuns {
  import opened Common
  import opened FoodOrders
  import SeatMaps
  import Venue

  // ----- Lines and totals under replacement -----

  lemma {:induction false} LinesConcat(a: seq<Line>, b: seq<Line>, id: Id)
    ensures LinesOf(a + b, id) == LinesOf(a, id) + LinesOf(b, id)
    decreases |b|
  {
    if b == [] {
      assert a + b == a;
    } else {
      var most := b[..|b| - 1];
      assert (a + b)[..|a + b| - 1] == a + most;
      LinesConcat(a, most, id);
    }
  }

  lemma {:induction false} LinesWithout(lines: seq<Line>, gone: Id, id: Id)
    ensures LinesOf(Without(lines, gone), id) == if id == gone then [] else LinesOf(lines, id)
    decreases |lines|
  {
    if lines != [] {
      var most, last := lines[..|lines| - 1], lines[|lines| - 1];
      LinesWithout(most, gone, id);
      if last.foodOrderId != gone { LinesConcat(Without(most, gone), [last], id); LineAlone(last, id); }
    }
  }

  lemma LineAlone(line: Line, id: Id)
    ensures LinesOf([line], id) == if line.foodOrderId == id then [line.dish] else []
  {
    assert [line][..0] == [];
  }

  lemma {:induction false} LinesAdded(owner: Id, dishes: seq<Dish>, id: Id)
    ensures LinesOf(AsLines(owner, dishes), id) == if id == owner then dishes else []
    decreases |dishes|
  {
    if dishes != [] {
      var most := dishes[..|dishes| - 1];
      LinesAdded(owner, most, id);
      assert AsLines(owner, dishes)[..|dishes| - 1] == AsLines(owner, most);
      assert most + [dishes[|dishes| - 1]] == dishes;
    }
  }

  lemma {:induction false} TotalConcat(orders: seq<FoodOrder>, a: seq<Line>, b: seq<Line>, e: Id, m: Id, n: string)
    ensures Total(orders, a + b, e, m, n) == Total(orders, a, e, m, n) + Total(orders, b, e, m, n)
    decreases |b|
  {
    if b == [] {
      assert a + b == a;
    } else {
      assert (a + b)[..|a + b| - 1] == a + b[..|b| - 1];
      TotalConcat(orders, a, b[..|b| - 1], e, m, n);
    }
  }

  function Share(orders: seq<FoodOrder>, id: Id, dishes: seq<Dish>, e: Id, m: Id, n: string): int {
    if id < |orders| && orders[id].eventId == e then Quantity(dishes, m, n) else 0
  }

  lemma {:induction false} TotalWithout(orders: seq<FoodOrder>, lines: seq<Line>, gone: Id, e: Id, m: Id, n: string)
    ensures Total(orders, Without(lines, gone), e, m, n)
      == Total(orders, lines, e, m, n) - Share(orders, gone, LinesOf(lines, gone), e, m, n)
    decreases |lines|
  {
    if lines != [] {
      var most, last := lines[..|lines| - 1], lines[|lines| - 1];
      TotalWithout(orders, most, gone, e, m, n);
      if last.foodOrderId == gone {
        assert (LinesOf(most, gone) + [last.dish])[..|LinesOf(most, gone)|] == LinesOf(most, gone);
      } else {
        assert (Without(most, gone) + [last])[..|Without(most, gone)|] == Without(most, gone);
      }
    }
  }

  lemma {:induction false} TotalAdded(orders: seq<FoodOrder>, owner: Id, dishes: seq<Dish>, e: Id, m: Id, n: string)
    ensures Total(orders, AsLines(owner, dishes), e, m, n) == Share(orders, owner, dishes, e, m, n)
    decreases |dishes|
  {
    if dishes != [] {
      var most := dishes[..|dishes| - 1];
      TotalAdded(orders, owner, most, e, m, n);
      assert AsLines(owner, dishes)[..|dishes| - 1] == AsLines(owner, most);
    }
  }

  /** Rows of the same events, and lines of existing rows only: the same total. */
  lemma {:induction false} TotalOfSameEvents(before: seq<FoodOrder>, after: seq<FoodOrder>, lines: seq<Line>, e: Id, m: Id, n: string)
    requires |before| <= |after| && forall k :: 0 <= k < |before| ==> after[k].eventId == before[k].eventId
    requires forall l :: l in lines ==> l.foodOrderId < |before|
    ensures Total(after, lines, e, m, n) == Total(before, lines, e, m, n)
    decreases |lines|
  {
    if lines != [] {
      TotalOfSameEvents(before, after, lines[..|lines| - 1], e, m, n);
    }
  }

  // ----- The aggregate against a recount, order by order -----

  /** The reference count: each order of the event in turn, its own lines' quantities. */
  function Recount(st: Store, upTo: nat, e: Id, m: Id, n: string): int
    requires upTo <= |st.orders|
  {
    if upTo == 0 then 0
    else Recount(st, upTo - 1, e, m, n) + Share(st.orders, upTo - 1, LinesOf(st.lines, upTo - 1), e, m, n)
  }

  lemma {:induction false} RecountSnoc(st: Store, line: Line, upTo: nat, e: Id, m: Id, n: string)
    requires upTo <= |st.orders|
    ensures Recount(st.(lines := st.lines + [line]), upTo, e, m, n)
      == Recount(st, upTo, e, m, n) + (if line.foodOrderId < upTo && Counts(st.orders, line, e, m, n) then line.dish.quantity else 0)
    decreases upTo
  {
    if upTo > 0 {
      RecountSnoc(st, line, upTo - 1, e, m, n);
      var before := LinesOf(st.lines, upTo - 1);
      assert (st.lines + [line])[..|st.lines|] == st.lines;
      assert (before + [line.dish])[..|before|] == before;
    }
  }

  lemma {:induction false} RecountNothing(orders: seq<FoodOrder>, upTo: nat, e: Id, m: Id, n: string)
    requires upTo <= |orders|
    ensures Recount(Store(orders, []), upTo, e, m, n) == 0
  {
    if upTo > 0 { RecountNothing(orders, upTo - 1, e, m, n); }
  }

  /** The grouped join over lines equals the recount over orders. */
  lemma {:induction false} AggregateAgreesWithRecount(st: Store, e: Id, m: Id, n: string)
    requires forall l :: l in st.lines ==> l.foodOrderId < |st.orders|
    ensures Total(st.orders, st.lines, e, m, n) == Recount(st, |st.orders|, e, m, n)
    decreases |st.lines|
  {
    if st.lines == [] {
      RecountNothing(st.orders, |st.orders|, e, m, n);
    } else {
      var last := st.lines[|st.lines| - 1];
      var most := st.(lines := st.lines[..|st.lines| - 1]);
      AggregateAgreesWithRecount(most, e, m, n);
      RecountSnoc(most, last, |st.orders|, e, m, n);
      assert most.lines + [last] == st.lines;
    }
  }

  // ----- Invariant -----

  ghost predicate Ok(st: Store) {
    && (forall a, b :: 0 <= a < b < |st.orders| && st.orders[a].ticketId.Some? ==> st.orders[a].ticketId != st.orders[b].ticketId)
    && (forall a, b :: 0 <= a < b < |st.orders| && st.orders[a].clientRequestId.Some? ==>
          st.orders[a].clientRequestId != st.orders[b].clientRequestId)
    && (forall l :: l in st.lines ==> l.foodOrderId < |st.orders|)
    && (forall a :: 0 <= a < |st.orders| ==>
          if st.orders[a].source.WAITER? then st.orders[a].ticketId.None? else st.orders[a].ticketId.Some? && st.orders[a].clientRequestId.None?)
  }

  /** Rows keep their identity; whether a status may move is up to the call. */
  ghost predicate SameRows(before: seq<FoodOrder>, after: seq<FoodOrder>) {
    && |before| <= |after|
    && forall k :: 0 <= k < |before| ==>
         && after[k] == before[k].(seatId := after[k].seatId, tableId := after[k].tableId, status := after[k].status)
         && (before[k].source.WAITER? ==> after[k].tableId == before[k].tableId)
  }

  lemma WithoutSubset(lines: seq<Line>, id: Id)
    ensures forall l :: l in Without(lines, id) ==> l in lines
  {
    if lines != [] { WithoutSubset(lines[..|lines| - 1], id); }
  }

  function Kept(st: Store, id: Id): seq<Line> {
    if id < |st.orders| then Without(st.lines, id) else st.lines
  }

  lemma SubmitRows(st: Store, up: Upstream, orderId: Id, ticketId: Id, inputs: seq<Input>)
    requires Ok(st) && Submit(st, up, orderId, ticketId, inputs).1.Ok?
    ensures var (after, reply) := Submit(st, up, orderId, ticketId, inputs);
      var id := reply.value;
      && SameRows(st.orders, after.orders) && id < |after.orders| && after.orders[id].ticketId == Some(ticketId)
      && (forall o: Id :: o != id && o < |st.orders| ==> after.orders[o] == st.orders[o])
      && (if id < |st.orders| then after.orders[id].status == st.orders[id].status else after.orders[id].status == RECEIVED)
      && after.lines == Kept(st, id) + AsLines(id, SubmitVerdict(up, orderId, ticketId, inputs).value)
  {
  }

  lemma SubmitKeeps(st: Store, up: Upstream, orderId: Id, ticketId: Id, inputs: seq<Input>)
    requires Ok(st) && Submit(st, up, orderId, ticketId, inputs).1.Ok?
    ensures Ok(Submit(st, up, orderId, ticketId, inputs).0)
  {
    var id := Submit(st, up, orderId, ticketId, inputs).1.value;
    SubmitRows(st, up, orderId, ticketId, inputs);
    WithoutSubset(st.lines, id);
    assert forall l :: l in Kept(st, id) ==> l in st.lines;
  }

  lemma LinesReplaced(st: Store, id: Id, dishes: seq<Dish>, o: Id)
    requires Ok(st) && id <= |st.orders|
    ensures LinesOf(Kept(st, id) + AsLines(id, dishes), o) == if o == id then dishes else LinesOf(st.lines, o)
  {
    NoLines(st.lines, |st.orders|);
    LinesConcat(Kept(st, id), AsLines(id, dishes), o);
    LinesWithout(st.lines, id, o);
    LinesAdded(id, dishes, o);
  }

  lemma TotalReplaced(st: Store, after: seq<FoodOrder>, id: Id, dishes: seq<Dish>, e: Id, m: Id, n: string)
    requires Ok(st) && id <= |st.orders| && SameRows(st.orders, after)
    ensures Total(after, Kept(st, id) + AsLines(id, dishes), e, m, n)
      == Total(st.orders, st.lines, e, m, n) - Share(after, id, LinesOf(st.lines, id), e, m, n) + Share(after, id, dishes, e, m, n)
  {
    NoLines(st.lines, |st.orders|);
    TotalConcat(after, Kept(st, id), AsLines(id, dishes), e, m, n);
    TotalAdded(after, id, dishes, e, m, n);
    TotalWithout(after, st.lines, id, e, m, n);
    TotalOfSameEvents(st.orders, after, st.lines, e, m, n);
  }

  /** A successful submission replaces its ticket's lines with the resolved dishes and moves each
      total by exactly new minus old; other orders' rows and lines, and a kitchen status already
      reached, stay. */
  lemma SubmitReplaces(st: Store, up: Upstream, orderId: Id, ticketId: Id, inputs: seq<Input>)
    requires Ok(st) && Submit(st, up, orderId, ticketId, inputs).1.Ok?
    ensures var (after, reply) := Submit(st, up, orderId, ticketId, inputs);
      var dishes := SubmitVerdict(up, orderId, ticketId, inputs).value;
      var id := reply.value;
      && Ok(after) && SameRows(st.orders, after.orders) && id < |after.orders| && after.orders[id].ticketId == Some(ticketId)
      && LinesOf(after.lines, id) == dishes
      && (forall o: Id :: o != id ==> LinesOf(after.lines, o) == LinesOf(st.lines, o))
      && (forall o: Id :: o != id && o < |st.orders| ==> after.orders[o] == st.orders[o])
      && (if id < |st.orders| then after.orders[id].status == st.orders[id].status else after.orders[id].status == RECEIVED)
      && forall e, m, n :: Total(after.orders, after.lines, e, m, n)
           == Total(st.orders, st.lines, e, m, n) - Share(after.orders, id, LinesOf(st.lines, id), e, m, n) + Share(after.orders, id, dishes, e, m, n)
  {
    var (after, reply) := Submit(st, up, orderId, ticketId, inputs);
    var dishes := SubmitVerdict(up, orderId, ticketId, inputs).value;
    var id := reply.value;
    SubmitRows(st, up, orderId, ticketId, inputs);
    SubmitKeeps(st, up, orderId, ticketId, inputs);
    forall o: Id ensures LinesOf(after.lines, o) == if o == id then dishes else LinesOf(st.lines, o) {
      LinesReplaced(st, id, dishes, o);
    }
    forall e, m, n ensures Total(after.orders, after.lines, e, m, n)
      == Total(st.orders, st.lines, e, m, n) - Share(after.orders, id, LinesOf(st.lines, id), e, m, n) + Share(after.orders, id, dishes, e, m, n)
    {
      TotalReplaced(st, after.orders, id, dishes, e, m, n);
    }
  }

  lemma NoLines(lines: seq<Line>, id: Id)
    requires forall l :: l in lines ==> l.foodOrderId < id
    ensures LinesOf(lines, id) == []
  {
    if lines != [] { NoLines(lines[..|lines| - 1], id); }
  }

  lemma WaiterAdds(st: Store, up: Upstream, call: WaiterCall)
    requires Ok(st)
    ensures var (after, reply) := CreateWaiterOrder(st, up, call);
      && Ok(after) && SameRows(st.orders, after.orders) && st.orders <= after.orders
      && (reply.Ok? && reply.value >= |st.orders| ==>
            reply.value == |st.orders| && LinesOf(after.lines, |st.orders|) == WaiterVerdict(up, call).value)
      && (forall o: Id :: o < |st.orders| ==> LinesOf(after.lines, o) == LinesOf(st.lines, o))
  {
    var (after, reply) := CreateWaiterOrder(st, up, call);
    if after != st {
      var dishes := WaiterVerdict(up, call).value;
      assert after == Store(st.orders + [WaiterRow(up, call)], st.lines + AsLines(|st.orders|, dishes));
      NoLines(st.lines, |st.orders|);
      forall o: Id ensures LinesOf(after.lines, o) == LinesOf(st.lines, o) + (if o == |st.orders| then dishes else []) {
        LinesConcat(st.lines, AsLines(|st.orders|, dishes), o);
        LinesAdded(|st.orders|, dishes, o);
      }
    }
  }

  lemma {:induction false} BulkKeeps(st: Store, ids: seq<Id>, status: FoodStatus, manages: set<Id>)
    requires Ok(st)
    ensures var after := BulkUpdate(st, ids, status, manages).0;
      && Ok(after) && SameRows(st.orders, after.orders) && |after.orders| == |st.orders| && after.lines == st.lines
      && forall k :: 0 <= k < |st.orders| ==> after.orders[k] == st.orders[k].(status := after.orders[k].status)
    decreases |ids|
  {
    if ids != [] {
      var most := ids[..|ids| - 1];
      BulkKeeps(st, most, status, manages);
      StatusKeeps(BulkUpdate(st, most, status, manages).0, ids[|ids| - 1], status, manages);
      hide Ok, UpdateById;
    }
  }

  lemma StatusKeeps(st: Store, id: Id, status: FoodStatus, manages: set<Id>)
    requires Ok(st)
    ensures var after := UpdateById(st, id, status, manages).0;
      && Ok(after) && SameRows(st.orders, after.orders) && |after.orders| == |st.orders| && after.lines == st.lines
      && forall k :: 0 <= k < |st.orders| ==> after.orders[k] == st.orders[k].(status := after.orders[k].status)
  {
  }

  lemma TicketStatusKeeps(st: Store, ticketId: Id, status: FoodStatus, manages: set<Id>)
    requires Ok(st)
    ensures var after := UpdateByTicket(st, ticketId, status, manages).0;
      Ok(after) && SameRows(st.orders, after.orders)
  {
    var found := FindByTicket(st.orders, ticketId);
    if found.Some? {
      hide Ok, SameRows, UpdateById;
      StatusKeeps(st, found.value, status, manages);
    }
  }

  lemma SubmitStays(st: Store, up: Upstream, orderId: Id, ticketId: Id, inputs: seq<Input>)
    requires Ok(st)
    ensures var after := Submit(st, up, orderId, ticketId, inputs).0;
      Ok(after) && SameRows(st.orders, after.orders)
  {
    if Submit(st, up, orderId, ticketId, inputs).1.Ok? {
      SubmitRows(st, up, orderId, ticketId, inputs);
      SubmitKeeps(st, up, orderId, ticketId, inputs);
    }
  }

  lemma DoKeeps(st: Store, op: Op)
    requires Ok(st)
    ensures Ok(Do(st, op)) && SameRows(st.orders, Do(st, op).orders)
  {
    hide Ok, SameRows, Submit, CreateWaiterOrder, UpdateById, UpdateByTicket;
    match op
    case SubmitOp(up, orderId, ticketId, inputs) => SubmitStays(st, up, orderId, ticketId, inputs);
    case WaiterOp(up, call) => WaiterAdds(st, up, call);
    case StatusOp(id, status, manages) => StatusKeeps(st, id, status, manages);
    case TicketStatusOp(ticketId, status, manages) => TicketStatusKeeps(st, ticketId, status, manages);
    case BulkOp(ids, status, manages) => BulkKeeps(st, ids, status, manages);
  }

  /** At most one pre-order a ticket and one waiter order a key; no line without its order. */
  lemma {:induction false} RunKeeps(ops: seq<Op>)
    ensures Ok(Run(ops))
    decreases |ops|
  {
    if ops != [] {
      RunKeeps(ops[..|ops| - 1]);
      DoKeeps(Run(ops[..|ops| - 1]), ops[|ops| - 1]);
    }
  }

  // ----- Runs -----

  predicate SubmitsFor(st: Store, op: Op, ticketId: Id) {
    op.SubmitOp? && op.ticketId == ticketId && Submit(st, op.up, op.orderId, op.ticketId, op.inputs).1.Ok?
  }

  /** The ticket's pre-order is row `id`, and these are its lines. */
  ghost predicate Stands(st: Store, ticketId: Id, id: Id, dishes: seq<Dish>) {
    && id < |st.orders|
    && st.orders[id].ticketId == Some(ticketId)
    && LinesOf(st.lines, id) == dishes
  }

  lemma OtherOpsKeepLines(st: Store, op: Op, ticketId: Id, id: Id, dishes: seq<Dish>)
    requires Ok(st) && Stands(st, ticketId, id, dishes) && !SubmitsFor(st, op, ticketId)
    ensures Stands(Do(st, op), ticketId, id, dishes)
  {
    DoKeeps(st, op);
    match op
    case SubmitOp(up, orderId, other, inputs) =>
      if Submit(st, up, orderId, other, inputs).1.Ok? { SubmitReplaces(st, up, orderId, other, inputs); }
    case WaiterOp(up, call) => WaiterAdds(st, up, call);
    case BulkOp(ids, status, manages) => BulkKeeps(st, ids, status, manages);
    case _ =>
  }

  lemma SubmissionStands(st: Store, op: Op, ticketId: Id)
    requires Ok(st) && SubmitsFor(st, op, ticketId)
    ensures Stands(Do(st, op), ticketId, Submit(st, op.up, op.orderId, ticketId, op.inputs).1.value,
                   SubmitVerdict(op.up, op.orderId, ticketId, op.inputs).value)
  {
    SubmitReplaces(st, op.up, op.orderId, ticketId, op.inputs);
  }

  lemma NotResubmitted(ops: seq<Op>, i: nat, ticketId: Id)
    requires i < |ops| && forall j :: i <= j < |ops| ==> !SubmitsFor(Run(ops[..j]), ops[j], ticketId)
    ensures var most := ops[..|ops| - 1];
      forall j :: i <= j < |most| ==> !SubmitsFor(Run(most[..j]), most[j], ticketId)
  {
    var most := ops[..|ops| - 1];
    forall j | i <= j < |most| ensures !SubmitsFor(Run(most[..j]), most[j], ticketId) { assert most[..j] == ops[..j]; }
  }

  lemma {:induction false} StandsUntilResubmitted(ops: seq<Op>, i: nat, ticketId: Id, id: Id, dishes: seq<Dish>)
    requires i <= |ops| && Stands(Run(ops[..i]), ticketId, id, dishes)
    requires forall j :: i <= j < |ops| ==> !SubmitsFor(Run(ops[..j]), ops[j], ticketId)
    ensures Stands(Run(ops), ticketId, id, dishes)
    decreases |ops|
  {
    hide Ok, Stands, Do;
    if i == |ops| {
      assert ops[..i] == ops;
    } else {
      var last := |ops| - 1;
      var most := ops[..last];
      assert most[..i] == ops[..i];
      NotResubmitted(ops, i, ticketId);
      StandsUntilResubmitted(most, i, ticketId, id, dishes);
      RunKeeps(most);
      assert ops[..last] == most && !SubmitsFor(Run(most), ops[last], ticketId);
      OtherOpsKeepLines(Run(most), ops[last], ticketId, id, dishes);
      assert Run(ops) == Do(Run(most), ops[last]);
    }
  }

  /** After any serial run, a ticket's lines are exactly those its last successful submission
      resolved, and they stand under the ticket's one pre-order. */
  lemma LastSubmissionWins(ops: seq<Op>, k: nat, ticketId: Id)
    requires k < |ops| && SubmitsFor(Run(ops[..k]), ops[k], ticketId)
    requires forall j :: k < j < |ops| ==> !SubmitsFor(Run(ops[..j]), ops[j], ticketId)
    ensures var id := Submit(Run(ops[..k]), ops[k].up, ops[k].orderId, ticketId, ops[k].inputs).1.value;
      && FindByTicket(Run(ops).orders, ticketId) == Some(id)
      && LinesOf(Run(ops).lines, id) == SubmitVerdict(ops[k].up, ops[k].orderId, ticketId, ops[k].inputs).value
  {
    var id := Submit(Run(ops[..k]), ops[k].up, ops[k].orderId, ticketId, ops[k].inputs).1.value;
    var dishes := SubmitVerdict(ops[k].up, ops[k].orderId, ticketId, ops[k].inputs).value;
    RunKeeps(ops[..k]);
    SubmissionStands(Run(ops[..k]), ops[k], ticketId);
    assert ops[..k + 1][..k] == ops[..k];
    StandsUntilResubmitted(ops, k + 1, ticketId, id, dishes);
    RunKeeps(ops);
  }

  predicate TouchesStatus(op: Op) {
    op.StatusOp? || op.TicketStatusOp? || op.BulkOp?
  }

  /** Edits never reset the kitchen: only status calls move a status, and rows keep their identity. */
  lemma {:induction false} StatusSurvivesEdits(ops: seq<Op>, i: nat)
    requires i <= |ops| && forall j :: i <= j < |ops| ==> !TouchesStatus(ops[j])
    ensures |Run(ops[..i]).orders| <= |Run(ops).orders|
    ensures forall k :: 0 <= k < |Run(ops[..i]).orders| ==> Run(ops).orders[k].status == Run(ops[..i]).orders[k].status
    decreases |ops|
  {
    if i == |ops| {
      assert ops[..i] == ops;
    } else {
      var most, op := ops[..|ops| - 1], ops[|ops| - 1];
      assert most[..i] == ops[..i];
      StatusSurvivesEdits(most, i);
      RunKeeps(most);
      match op
      case SubmitOp(up, orderId, ticketId, inputs) =>
        if Submit(Run(most), up, orderId, ticketId, inputs).1.Ok? { SubmitReplaces(Run(most), up, orderId, ticketId, inputs); }
      case WaiterOp(up, call) => WaiterAdds(Run(most), up, call);
      case _ =>
    }
  }

  /** The call that made this waiter order found its table on the event's version, with a sold seat. */
  ghost predicate BookedBy(op: Op, row: FoodOrder) {
    && op.WaiterOp? && op.call.eventId == row.eventId && Some(op.call.tableId) == row.tableId
    && op.call.eventId in op.up.events && op.up.events[op.call.eventId].versionId.Some? && op.up.venue.Some?
    && var v := op.up.events[op.call.eventId].versionId.value;
       && v in op.up.snapshots
       && exists t :: 0 <= t < |op.up.snapshots[v].tables| && op.up.snapshots[v].tables[t].id == op.call.tableId
                      && HasSoldSeat(op.up.venue.value, v, op.up.snapshots[v].tables[t])
  }

  lemma NewRowsAreBooked(st: Store, op: Op, a: nat)
    requires Ok(st) && a < |Do(st, op).orders| && Do(st, op).orders[a].source.WAITER?
    requires a >= |st.orders|
    ensures BookedBy(op, Do(st, op).orders[a])
  {
    match op
    case BulkOp(ids, status, manages) => BulkKeeps(st, ids, status, manages);
    case SubmitOp(up, orderId, ticketId, inputs) =>
    case WaiterOp(up, call) =>
      var tables := up.snapshots[up.events[call.eventId].versionId.value].tables;
      var t := FindTable(tables, call.tableId).value;
      assert HasSoldSeat(up.venue.value, up.events[call.eventId].versionId.value, tables[t]);
    case _ =>
  }

  /** Operation `k` of the run made row `a`. */
  predicate MadeAt(ops: seq<Op>, k: nat, a: nat)
    requires k < |ops|
  {
    a == |Run(ops[..k]).orders| && a < |Run(ops[..k + 1]).orders|
  }

  lemma OneRowAtMost(st: Store, op: Op)
    requires Ok(st)
    ensures |Do(st, op).orders| <= |st.orders| + 1
  {
    match op
    case BulkOp(ids, status, manages) => BulkKeeps(st, ids, status, manages);
    case _ =>
  }

  /** An older row was a waiter's before, for the same table. */
  lemma SameBooking(before: seq<FoodOrder>, after: seq<FoodOrder>, a: nat)
    requires SameRows(before, after) && a < |after| && after[a].source.WAITER?
    ensures a < |before| ==> before[a].source.WAITER? && forall op :: BookedBy(op, before[a]) <==> BookedBy(op, after[a])
  {
  }

  /** Every waiter order is for a table that had a seat sold in its event's version when it was made:
      the operation that appended the row read that sold seat itself. */
  lemma {:induction false} WaiterOrdersAreBooked(ops: seq<Op>, a: nat)
    requires a < |Run(ops).orders| && Run(ops).orders[a].source.WAITER?
    ensures exists k :: 0 <= k < |ops| && MadeAt(ops, k, a) && BookedBy(ops[k], Run(ops).orders[a])
    decreases |ops|
  {
    var last := |ops| - 1;
    var most := ops[..last];
    RunKeeps(most);
    if a < |Run(most).orders| {
      DoKeeps(Run(most), ops[last]);
      SameBooking(Run(most).orders, Run(ops).orders, a);
      hide Do, SameRows, BookedBy, Ok, MadeAt;
      WaiterOrdersAreBooked(most, a);
      var k :| 0 <= k < |most| && MadeAt(most, k, a) && BookedBy(most[k], Run(most).orders[a]);
      MadeInPrefix(ops, k, a);
      assert most[k] == ops[k];
    } else {
      NewestIsBooked(ops, a);
    }
  }

  lemma MadeInPrefix(ops: seq<Op>, k: nat, a: nat)
    requires k < |ops| - 1
    ensures MadeAt(ops[..|ops| - 1], k, a) <==> MadeAt(ops, k, a)
  {
    var most := ops[..|ops| - 1];
    assert most[..k] == ops[..k] && most[..k + 1] == ops[..k + 1];
  }

  lemma NewestIsBooked(ops: seq<Op>, a: nat)
    requires ops != [] && Ok(Run(ops[..|ops| - 1])) && |Run(ops[..|ops| - 1]).orders| <= a < |Run(ops).orders|
    requires Run(ops).orders[a].source.WAITER?
    ensures MadeAt(ops, |ops| - 1, a) && BookedBy(ops[|ops| - 1], Run(ops).orders[a])
  {
    var last := |ops| - 1;
    NewRowsAreBooked(Run(ops[..last]), ops[last], a);
    OneRowAtMost(Run(ops[..last]), ops[last]);
    assert ops[..last + 1] == ops;
  }

  predicate Manageable(st: Store, id: Id, manages: set<Id>) {
    id < |st.orders| && st.orders[id].restaurantId in manages
  }

  lemma StatusExactly(st: Store, id: Id, status: FoodStatus, manages: set<Id>)
    ensures var (after, reply) := UpdateById(st, id, status, manages);
      && (reply.Ok? <==> Manageable(st, id, manages))
      && (reply.Ok? ==> reply.value == id && after == st.(orders := st.orders[id := st.orders[id].(status := status)]))
      && (reply.Err? ==> after == st)
  {
  }

  lemma ManageableSnoc(st: Store, most: seq<Id>, last: Id, manages: set<Id>)
    ensures var ids := most + [last];
      && (forall k :: k in ids <==> k in most || k == last)
      && ((forall i :: 0 <= i < |ids| ==> Manageable(st, ids[i], manages))
          <==> (forall i :: 0 <= i < |most| ==> Manageable(st, most[i], manages)) && Manageable(st, last, manages))
  {
    var ids := most + [last];
    if forall i :: 0 <= i < |ids| ==> Manageable(st, ids[i], manages) {
      forall i | 0 <= i < |most| ensures Manageable(st, most[i], manages) { assert ids[i] == most[i]; }
      assert ids[|most|] == last;
    }
  }

  /** A bulk update that succeeds sets exactly the listed rows to the status; one that fails names a
      row that is missing or not the caller's to manage. */
  lemma {:induction false} BulkUpdatesExactly(st: Store, ids: seq<Id>, status: FoodStatus, manages: set<Id>)
    ensures var (after, reply) := BulkUpdate(st, ids, status, manages);
      && (reply.Ok? <==> forall i :: 0 <= i < |ids| ==> Manageable(st, ids[i], manages))
      && |after.orders| == |st.orders| && after.lines == st.lines
      && (forall k :: 0 <= k < |st.orders| ==> after.orders[k].restaurantId == st.orders[k].restaurantId)
      && (reply.Ok? ==> reply.value == ids && forall k :: 0 <= k < |st.orders| ==>
            after.orders[k] == if k in ids then st.orders[k].(status := status) else st.orders[k])
    decreases |ids|
  {
    if ids != [] {
      var most, last := ids[..|ids| - 1], ids[|ids| - 1];
      BulkUpdatesExactly(st, most, status, manages);
      ManageableSnoc(st, most, last, manages);
      assert most + [last] == ids;
      StatusExactly(BulkUpdate(st, most, status, manages).0, last, status, manages);
      hide UpdateById;
    }
  }

  /** A pre-order with a seat stands at the one table that lists its seat in the event's version. */
  lemma PreOrdersStandAtTheirTable(st: Store, up: Upstream, orderId: Id, ticketId: Id, inputs: seq<Input>, t: nat, i: nat)
    requires Submit(st, up, orderId, ticketId, inputs).1.Ok?
    requires var event := up.events[up.orders[orderId].eventId];
      var seatId := FindTicket(up.orders[orderId].tickets, ticketId).value.seatId;
      && seatId.Some? && event.versionId.Some? && event.versionId.value in up.snapshots
      && SeatMaps.Partition(up.snapshots[event.versionId.value])
      && SeatMaps.At(up.snapshots[event.versionId.value], t, i, seatId.value)
    ensures var (after, reply) := Submit(st, up, orderId, ticketId, inputs);
      var snapshot := up.snapshots[up.events[up.orders[orderId].eventId].versionId.value];
      reply.value < |after.orders| && after.orders[reply.value].tableId == Some(snapshot.tables[t].id)
  {
    var seatId := FindTicket(up.orders[orderId].tickets, ticketId).value.seatId;
    SeatMaps.LookupsAgreeWithPartition(up.snapshots[up.events[up.orders[orderId].eventId].versionId.value], seatId.value);
  }
}
