/** The seat -> order -> payment protocol as one state machine. Each step is one local
    read-check-write of one service; the sequences that span services interleave freely between
    any number of buyers, and any call between services may be lost, before or after its effect. */
module Protocol {
  import opened Common
  import opened Venue
  import opened Pricing
  import Orders
  import Payments

  /** A create() in flight: the version it read, and how many items it has claimed. */
  datatype Creating = Creating(
    buyerId: Id, eventId: Id, versionId: Option<Id>, paymentMethod: Orders.PaymentMethod,
    inputs: seq<Orders.ItemInput>, done: nat, checked: bool)

  /** The fire-and-forget releases of a cancelled order; `todo` are the calls not yet delivered. */
  datatype Releasing = AwaitingEvent | Sending(versionId: Id, todo: set<nat>)

  /** An initiate() or submitProof() that has fetched the order as PENDING. */
  datatype Paying = Paying(orderId: Id, paymentMethod: Orders.PaymentMethod)

  /** orchestrateOrderConfirmation() between its remote calls. */
  datatype Orchestration =
    | ToConfirm(orderId: Id)
    | ToFetchOrder(orderId: Id)
    | ToFetchEvent(orderId: Id)
    | Marking(orderId: Id, versionId: Id, next: nat)

  datatype World = World(
    now: int,
    venue: VenueState,
    eventVersion: map<Id, Option<Id>>,    // the events' seatMapVersionId
    orders: seq<Orders.Order>,
    store: Payments.Store,
    creating: map<Id, Creating>,
    releasing: map<Id, Releasing>,        // by order
    paying: map<Id, Paying>,
    orchestrating: map<Id, Orchestration>,
    tokens: seq<seq<Option<Token>>>,      // history: the token behind each saved item
    approvals: set<Id>,                   // history: orders whose payment has been approved
    unconfirmed: set<Id>)                 // history: orders of which a confirm call failed

  function Start(eventVersion: map<Id, Option<Id>>): World {
    World(0, Venue.EMPTY, eventVersion, [], Payments.EMPTY, map[], map[], map[], map[], [], {}, {})
  }

  /** The buyers' own calls to the venue service. */
  datatype BuyerCall =
    | BuyerHold(key: SeatKey, token: Token)
    | BuyerRenew(key: SeatKey, token: Token)
    | BuyerRelease(key: SeatKey, token: Token)

  datatype CreateMove =
    | TakeUnseated
    | CheckSeat
    | ReserveSeat
    | AbortCreate
    | SaveOrder(items: seq<OrderItem>, discount: int, promoId: Option<Id>)

  datatype ReleaseMove = FetchEvent(lost: bool) | Arrives(item: nat) | Lost(item: nat)

  datatype PayMove = AbortPay | Initiate | SubmitProof

  datatype Notice =
    | Webhook(orderId: Id, signed: bool, statusCode: string)
    | ApproveProof(proofId: Id)
    | RejectProof(proofId: Id)

  datatype OrchestrationMove =
    | Confirm(arrives: bool, answers: bool)
    | FetchOrder(lost: bool)
    | FetchOrderEvent(lost: bool)
    | Mark(lost: bool)

  datatype Step =
    | Tick(now: int)
    | EditEvent(eventId: Id, versionId: Option<Id>)
    | Buyer(call: BuyerCall)
    | CreateBegin(req: Id, buyerId: Id, eventId: Id, paymentMethod: Orders.PaymentMethod, inputs: seq<Orders.ItemInput>)
    | Create(req: Id, create: CreateMove)
    | CancelSave(orderId: Id)
    | Release(orderId: Id, release: ReleaseMove)
    | PayFetchOrder(req: Id, orderId: Id)
    | Pay(req: Id, pay: PayMove)
    | Review(req: Id, notice: Notice)
    | Orchestrate(req: Id, move: OrchestrationMove)

  function Version(w: World, eventId: Id): Option<Id> {
    if eventId in w.eventVersion then w.eventVersion[eventId] else None
  }

  // ----- create() -----

  function CreateStep(w: World, req: Id, move: CreateMove, c: Creating): World {
    match move
    case TakeUnseated =>
      if c.done < |c.inputs| && c.inputs[c.done].seatId.None? && c.versionId.None?
      then w.(creating := w.creating[req := c.(done := c.done + 1)]) else w
    case CheckSeat =>
      if c.done < |c.inputs| && Claimable(c, c.done)
         && StatusOf(w.venue, ClaimKey(c, c.done), c.inputs[c.done].holderToken, w.now) == HELD_BY_ME
      then w.(creating := w.creating[req := c.(checked := true)]) else w
    case ReserveSeat =>
      if c.done < |c.inputs| && Claimable(c, c.done) && c.checked then
        var (venue, reply) := ReserveForOrder(w.venue, ClaimKey(c, c.done), c.inputs[c.done].holderToken.value, w.now);
        if reply.Ok? then w.(venue := venue, creating := w.creating[req := c.(done := c.done + 1, checked := false)])
        else w.(creating := w.creating - {req})
      else w
    case AbortCreate => w.(creating := w.creating - {req})
    case SaveOrder(items, discount, promoId) =>
      if c.done == |c.inputs| && Prepared(c.inputs, items)
      then w.(
        orders := w.orders + [Orders.Order(c.buyerId, c.eventId, Orders.PENDING, Sum(items), discount, Sum(items) - discount,
                                           promoId, c.paymentMethod, items)],
        tokens := w.tokens + [TokensOf(c.inputs)],
        creating := w.creating - {req})
      else w
  }

  predicate Claimable(c: Creating, j: nat)
    requires j < |c.inputs|
  {
    c.versionId.Some? && c.inputs[j].seatId.Some? && c.inputs[j].holderToken.Some?
  }

  function ClaimKey(c: Creating, j: nat): SeatKey
    requires j < |c.inputs| && Claimable(c, j)
  {
    SeatKey(c.versionId.value, c.inputs[j].seatId.value)
  }

  /** The saved items stand for the request's inputs; prices and labels are Orders' business. */
  predicate Prepared(inputs: seq<Orders.ItemInput>, items: seq<OrderItem>) {
    |items| == |inputs| && forall j :: 0 <= j < |items| ==> items[j].tierId == inputs[j].tierId && items[j].seatId == inputs[j].seatId
  }

  function TokensOf(inputs: seq<Orders.ItemInput>): seq<Option<Token>> {
    seq(|inputs|, j requires 0 <= j < |inputs| => if inputs[j].seatId.Some? then inputs[j].holderToken else None)
  }

  // ----- cancel() -----

  function SeatedItems(items: seq<OrderItem>): set<nat> {
    set i: nat | i < |items| && items[i].seatId.Some?
  }

  function ReleaseStep(w: World, o: Id, move: ReleaseMove, r: Releasing): World
    requires o < |w.orders|
  {
    match move
    case FetchEvent(lost) =>
      if !r.AwaitingEvent? then w
      else if lost || Version(w, w.orders[o].eventId).None? then w.(releasing := w.releasing - {o})
      else w.(releasing := w.releasing[o := Sending(Version(w, w.orders[o].eventId).value, SeatedItems(w.orders[o].items))])
    case Arrives(i) =>
      if r.Sending? && i in r.todo && i < |w.orders[o].items| && w.orders[o].items[i].seatId.Some?
      then w.(venue := ReleaseForOrder(w.venue, SeatKey(r.versionId, w.orders[o].items[i].seatId.value)),
              releasing := w.releasing[o := r.(todo := r.todo - {i})])
      else w
    case Lost(i) => if r.Sending? then w.(releasing := w.releasing[o := r.(todo := r.todo - {i})]) else w
  }

  // ----- payments -----

  function PayStep(w: World, req: Id, move: PayMove, p: Paying): World {
    match move
    case AbortPay => w.(paying := w.paying - {req})
    case Initiate =>
      w.(paying := w.paying - {req}, store := Payments.Initiate(w.store, p.orderId, p.paymentMethod).0)
    case SubmitProof =>
      w.(paying := w.paying - {req}, store := Payments.SubmitProof(w.store, p.orderId, p.paymentMethod).0)
  }

  /** What a notice does to the payment tables, and the order it approves, if any. */
  function Reviewed(store: Payments.Store, notice: Notice): (Payments.Store, Option<Id>) {
    match notice
    case Webhook(orderId, signed, statusCode) =>
      var (after, reply) := Payments.Webhook(store, orderId, signed, statusCode);
      (after, if reply == Ok(true) then Some(orderId) else None)
    case ApproveProof(proofId) =>
      var (after, reply) := Payments.ApproveProof(store, proofId);
      (after, if reply.Ok? then Some(reply.value) else None)
    case RejectProof(proofId) => (Payments.RejectProof(store, proofId).0, None)
  }

  function ReviewStep(w: World, req: Id, notice: Notice): World {
    var (store, approved) := Reviewed(w.store, notice);
    match approved
    case None => w.(store := store)
    case Some(orderId) =>
      // The approval is saved first; the order's confirmation then starts.
      w.(store := store, approvals := w.approvals + {orderId}, orchestrating := w.orchestrating[req := ToConfirm(orderId)])
  }

  // ----- orchestrateOrderConfirmation() -----

  function OrchestrateStep(w: World, req: Id, move: OrchestrationMove, t: Orchestration): World {
    match (move, t)
    case (Confirm(arrives, answers), ToConfirm(o)) => ConfirmStep(w, req, o, arrives, answers)
    case (FetchOrder(lost), ToFetchOrder(o)) => Proceed(w, req, if lost then None else Some(ToFetchEvent(o)))
    case (FetchOrderEvent(lost), ToFetchEvent(o)) =>
      var versionId := if o < |w.orders| then Version(w, w.orders[o].eventId) else None;
      Proceed(w, req, if lost || versionId.None? then None else Some(Marking(o, versionId.value, 0)))
    case (Mark(lost), Marking(o, versionId, i)) =>
      if o >= |w.orders| || i >= |w.orders[o].items| then Proceed(w, req, None)
      else
        var seatId := w.orders[o].items[i].seatId;
        var venue := if seatId.None? || lost then w.venue else MarkSold(w.venue, SeatKey(versionId, seatId.value), Some(o));
        Proceed(w, req, Some(Marking(o, versionId, i + 1))).(venue := venue)
    case _ => w
  }

  function Proceed(w: World, req: Id, next: Option<Orchestration>): World {
    match next
    case None => w.(orchestrating := w.orchestrating - {req})
    case Some(t) => w.(orchestrating := w.orchestrating[req := t])
  }

  /** confirmPayment over the network: the request, or only its answer, may be lost. */
  function ConfirmStep(w: World, req: Id, o: Id, arrives: bool, answers: bool): World {
    var (orders, reply) := if arrives then Orders.Confirm(w.orders, o) else (w.orders, Err(Orders.CannotConfirm));
    if reply.Ok? && answers then Proceed(w, req, Some(ToFetchOrder(o))).(orders := orders)
    else Proceed(w, req, None).(orders := orders, unconfirmed := w.unconfirmed + {o})
  }

  // ----- All steps -----

  function BuyerStep(w: World, call: BuyerCall): World {
    match call
    case BuyerHold(key, token) => w.(venue := CreateHold(w.venue, key, HOLD_TTL_SECONDS, token, w.now).0)
    case BuyerRenew(key, token) => w.(venue := RenewHold(w.venue, key, token, HOLD_TTL_SECONDS, w.now).0)
    case BuyerRelease(key, token) => w.(venue := ReleaseHold(w.venue, key, token, w.now).0)
  }

  function Next(w: World, step: Step): World {
    match step
    case Tick(now) => if w.now <= now then w.(now := now) else w
    case EditEvent(eventId, versionId) => w.(eventVersion := w.eventVersion[eventId := versionId])
    case Buyer(call) => BuyerStep(w, call)
    case CreateBegin(req, buyerId, eventId, paymentMethod, inputs) =>
      if req in w.creating || eventId !in w.eventVersion then w
      else w.(creating := w.creating[req := Creating(buyerId, eventId, w.eventVersion[eventId], paymentMethod, inputs, 0, false)])
    case Create(req, move) => if req in w.creating then CreateStep(w, req, move, w.creating[req]) else w
    case CancelSave(o) =>
      if o < |w.orders| && w.orders[o].status == Orders.PENDING
      then w.(orders := w.orders[o := w.orders[o].(status := Orders.CANCELLED)], releasing := w.releasing[o := AwaitingEvent])
      else w
    case Release(o, move) =>
      if o in w.releasing && o < |w.orders| then ReleaseStep(w, o, move, w.releasing[o]) else w
    case PayFetchOrder(req, o) =>
      if o < |w.orders| && w.orders[o].status == Orders.PENDING && req !in w.paying
      then w.(paying := w.paying[req := Paying(o, w.orders[o].paymentMethod)]) else w
    case Pay(req, move) => if req in w.paying then PayStep(w, req, move, w.paying[req]) else w
    case Review(req, notice) => if req in w.orchestrating then w else ReviewStep(w, req, notice)
    case Orchestrate(req, move) =>
      if req in w.orchestrating then OrchestrateStep(w, req, move, w.orchestrating[req]) else w
  }

  function Run(w: World, steps: seq<Step>): World
    decreases |steps|
  {
    if steps == [] then w else Next(Run(w, steps[..|steps| - 1]), steps[|steps| - 1])
  }
}
