/** What every run of the protocol keeps, with any interleaving and any lost call. */
module ProtocolSafety {
  import opened Common
  import opened Venue
  import opened Pricing
  import opened Protocol
  import Orders
  import Payments

  ghost predicate OwnsSeat(w: World, orderId: Id, seatId: Id) {
    orderId < |w.orders| && exists i :: 0 <= i < |w.orders[orderId].items| && w.orders[orderId].items[i].seatId == Some(seatId)
  }

  predicate Confirmed(w: World, orderId: Id) {
    orderId < |w.orders| && w.orders[orderId].status == Orders.CONFIRMED
  }

  /** Order rows: reachable statuses, one token list per order, one release per cancelled order. */
  ghost predicate OrdersOk(w: World) {
    && |w.tokens| == |w.orders|
    && (forall o :: 0 <= o < |w.orders| ==> w.orders[o].status in {Orders.PENDING, Orders.CONFIRMED, Orders.CANCELLED})
    && (forall o :: 0 <= o < |w.orders| ==> Confirmed(w, o) ==> o in w.approvals)
    && (forall o :: o in w.releasing ==> o < |w.orders| && w.orders[o].status == Orders.CANCELLED)
  }

  /** Every sold row names a confirmed order that contains the seat. */
  ghost predicate LedgerOk(w: World) {
    forall key :: key in w.venue.sold ==>
      w.venue.sold[key].Some? && Confirmed(w, w.venue.sold[key].value) && OwnsSeat(w, w.venue.sold[key].value, key.seatId)
  }

  ghost predicate OrchestrationsOk(w: World) {
    forall req :: req in w.orchestrating ==>
      var t := w.orchestrating[req];
      t.orderId in w.approvals && (!t.ToConfirm? ==> Confirmed(w, t.orderId))
  }

  /** Payments and proofs carry their order's method; a proof never points at a PAYHERE payment. */
  ghost predicate MethodsOk(w: World) {
    && (forall o :: o in w.store.payments ==>
          o < |w.orders| && w.store.payments[o].paymentMethod == w.orders[o].paymentMethod)
    && (forall p :: 0 <= p < |w.store.proofs| ==>
          var o := w.store.proofs[p].orderId;
          o in w.store.payments && o < |w.orders| && w.orders[o].paymentMethod == Orders.PAYMENT_PROOF)
    && (forall req :: req in w.paying ==>
          w.paying[req].orderId < |w.orders| && w.orders[w.paying[req].orderId].paymentMethod == w.paying[req].paymentMethod)
  }

  ghost predicate AwaitsConfirm(w: World, orderId: Id) {
    exists req :: req in w.orchestrating && w.orchestrating[req] == ToConfirm(orderId)
  }

  /** An approved payment's order is confirmed, about to be, or had a confirm call fail. */
  ghost predicate ApprovalsOk(w: World) {
    forall o :: o in w.store.payments && w.store.payments[o].status == Payments.APPROVED ==>
      Confirmed(w, o) || AwaitsConfirm(w, o) || o in w.unconfirmed
  }

  ghost predicate Inv(w: World) {
    && OrdersOk(w)
    && LedgerOk(w)
    && OrchestrationsOk(w)
    && MethodsOk(w)
    && ApprovalsOk(w)
  }

  /** Rows only grow: an order keeps everything but a PENDING status. */
  ghost predicate OrdersGrow(before: World, after: World) {
    && |before.orders| <= |after.orders|
    && forall o :: 0 <= o < |before.orders| ==>
         && after.orders[o].(status := Orders.PENDING) == before.orders[o].(status := Orders.PENDING)
         && (before.orders[o].status != Orders.PENDING ==> after.orders[o].status == before.orders[o].status)
  }

  /** Sold rows never disappear and never change owner. */
  ghost predicate LedgerGrows(before: World, after: World) {
    forall key :: key in before.venue.sold ==> key in after.venue.sold && after.venue.sold[key] == before.venue.sold[key]
  }

  /** An approved PAYHERE payment stays approved. */
  ghost predicate PayHereFinal(before: World, after: World) {
    forall o :: PayHereApproved(before, o) ==> PayHereApproved(after, o)
  }

  predicate PayHereApproved(w: World, o: Id) {
    && o in w.store.payments && w.store.payments[o].status == Payments.APPROVED
    && o < |w.orders| && w.orders[o].paymentMethod == Orders.PAYHERE
  }

  ghost predicate Forward(before: World, after: World) {
    && OrdersGrow(before, after)
    && LedgerGrows(before, after)
    && PayHereFinal(before, after)
    && before.approvals <= after.approvals
  }

  lemma OwnersKept(before: World, after: World)
    requires OrdersGrow(before, after)
    ensures forall o: Id, s: Id :: OwnsSeat(before, o, s) ==> OwnsSeat(after, o, s)
    ensures forall o: Id :: Confirmed(before, o) ==> Confirmed(after, o)
  {
    forall o: Id, s: Id | OwnsSeat(before, o, s) ensures OwnsSeat(after, o, s) {
      var i :| 0 <= i < |before.orders[o].items| && before.orders[o].items[i].seatId == Some(s);
      assert after.orders[o].items == before.orders[o].items;
    }
  }

  // ----- Frames: what each kind of step may have touched -----

  /** Only orders, holds and requests of the order service. */
  ghost predicate OrderSide(w: World, n: World) {
    && n.store == w.store && n.orchestrating == w.orchestrating && n.approvals == w.approvals
    && n.unconfirmed == w.unconfirmed && n.venue.sold == w.venue.sold
    && OrdersGrow(w, n) && (OrdersOk(w) ==> OrdersOk(n)) && (forall o: Id :: Confirmed(n, o) ==> Confirmed(w, o))
    && forall req :: req in n.paying ==>
         || (req in w.paying && n.paying[req] == w.paying[req])
         || (n.paying[req].orderId < |n.orders| && n.orders[n.paying[req].orderId].paymentMethod == n.paying[req].paymentMethod)
  }

  predicate Approved(store: Payments.Store, o: Id) {
    o in store.payments && store.payments[o].status == Payments.APPROVED
  }

  /** How a notice or a buyer's request may change the payment tables of orders `o` of method `m`. */
  ghost predicate StoreMoves(store: Payments.Store, after: Payments.Store, approved: Option<Id>) {
    && (forall o :: o in store.payments ==> o in after.payments && after.payments[o].paymentMethod == store.payments[o].paymentMethod)
    && (forall o :: o in after.payments && o !in store.payments ==> after.payments[o].status != Payments.APPROVED)
    && |store.proofs| <= |after.proofs|
    && (forall p :: 0 <= p < |store.proofs| ==> after.proofs[p].orderId == store.proofs[p].orderId)
    && (forall o: Id :: Approved(after, o) ==> Approved(store, o) || approved == Some(o))
    && (forall o: Id :: Approved(store, o) && !Approved(after, o) ==> exists p :: 0 <= p < |store.proofs| && store.proofs[p].orderId == o)
  }

  /** Only the payment tables and the orchestrations they start. */
  ghost predicate StoreSide(w: World, n: World, approved: Option<Id>) {
    && n.orders == w.orders && n.tokens == w.tokens && n.venue == w.venue && n.releasing == w.releasing && n.unconfirmed == w.unconfirmed
    && StoreMoves(w.store, n.store, approved)
    && n.approvals == w.approvals + (if approved.Some? then {approved.value} else {})
    && (forall req :: req in w.orchestrating ==> req in n.orchestrating && n.orchestrating[req] == w.orchestrating[req])
    && (forall req :: req in n.orchestrating ==> req in w.orchestrating || Some(n.orchestrating[req]) == StartOf(approved))
    && (approved.Some? ==> AwaitsConfirm(n, approved.value))
  }

  function StartOf(approved: Option<Id>): Option<Orchestration> {
    if approved.Some? then Some(ToConfirm(approved.value)) else None
  }

  /** Only one orchestration, and the order or the sold row it writes. */
  ghost predicate OrchestrationSide(w: World, n: World, req: Id) {
    && n.store == w.store && n.approvals == w.approvals && n.paying == w.paying && n.releasing == w.releasing && n.tokens == w.tokens
    && w.unconfirmed <= n.unconfirmed && OrdersGrow(w, n)
    && (forall r :: r != req ==> (r in n.orchestrating <==> r in w.orchestrating))
    && (forall r :: r != req && r in w.orchestrating ==> n.orchestrating[r] == w.orchestrating[r])
  }

  lemma ApprovalsFrame(w: World, n: World)
    requires ApprovalsOk(w) && OrdersGrow(w, n) && w.unconfirmed <= n.unconfirmed
    requires forall o: Id :: Approved(n.store, o) ==> AwaitsConfirm(n, o) || Approved(w.store, o)
    requires forall o: Id :: AwaitsConfirm(w, o) ==> AwaitsConfirm(n, o) || Confirmed(n, o) || o in n.unconfirmed
    ensures ApprovalsOk(n)
  {
    OwnersKept(w, n);
    forall o | o in n.store.payments && n.store.payments[o].status == Payments.APPROVED
      ensures Confirmed(n, o) || AwaitsConfirm(n, o) || o in n.unconfirmed
    {
      assert Approved(n.store, o);
    }
  }

  lemma StillAwaiting(w: World, n: World, o: Id)
    requires AwaitsConfirm(w, o)
    requires forall req :: req in w.orchestrating && w.orchestrating[req] == ToConfirm(o) ==>
      req in n.orchestrating && n.orchestrating[req] == w.orchestrating[req]
    ensures AwaitsConfirm(n, o)
  {
    var req :| req in w.orchestrating && w.orchestrating[req] == ToConfirm(o);
    assert n.orchestrating[req] == ToConfirm(o);
  }

  lemma OrderSideKeeps(w: World, n: World)
    requires Inv(w) && OrderSide(w, n)
    ensures Inv(n) && Forward(w, n)
  {
    OwnersKept(w, n);
    forall o | AwaitsConfirm(w, o) ensures AwaitsConfirm(n, o) { StillAwaiting(w, n, o); }
    ApprovalsFrame(w, n);
    assert LedgerOk(n);
    assert MethodsOk(n);
  }

  lemma StoreSideKeeps(w: World, n: World, approved: Option<Id>)
    requires Inv(w) && StoreSide(w, n, approved) && MethodsOk(n)
    ensures Inv(n) && Forward(w, n)
  {
    hide MethodsOk, OwnsSeat;
    OwnersKept(w, n);
    forall o | AwaitsConfirm(w, o) ensures AwaitsConfirm(n, o) { StillAwaiting(w, n, o); }
    ApprovalsFrame(w, n);
    assert OrdersOk(n) && LedgerOk(n);
    assert OrchestrationsOk(n);
    PayHereStays(w, n, approved);
  }

  lemma PayHereStays(w: World, n: World, approved: Option<Id>)
    requires MethodsOk(w) && StoreSide(w, n, approved)
    ensures PayHereFinal(w, n)
  {
    forall o | PayHereApproved(w, o) ensures PayHereApproved(n, o) {
      assert Approved(w.store, o);
    }
  }

  lemma OrchestrationSideKeeps(w: World, n: World, req: Id)
    requires Inv(w) && OrchestrationSide(w, n, req) && OrdersOk(n) && LedgerOk(n) && LedgerGrows(w, n)
    requires req in w.orchestrating
    requires req in n.orchestrating ==> n.orchestrating[req].orderId in n.approvals
    requires req in n.orchestrating && !n.orchestrating[req].ToConfirm? ==> Confirmed(n, n.orchestrating[req].orderId)
    requires forall o :: w.orchestrating[req] == ToConfirm(o) ==> AwaitsConfirm(n, o) || Confirmed(n, o) || o in n.unconfirmed
    ensures Inv(n) && Forward(w, n)
  {
    OwnersKept(w, n);
    forall o | AwaitsConfirm(w, o) ensures AwaitsConfirm(n, o) || Confirmed(n, o) || o in n.unconfirmed {
      if w.orchestrating[req] != ToConfirm(o) { StillAwaiting(w, n, o); }
    }
    ApprovalsFrame(w, n);
    assert MethodsOk(n);
    assert OrchestrationsOk(n);
  }

  // ----- Each step lies within its frame -----

  lemma CreateFrame(w: World, req: Id, move: CreateMove, c: Creating)
    ensures OrderSide(w, CreateStep(w, req, move, c))
  {
    hide OrderSide, StatusOf, Prepared;
    match move
    case ReserveSeat => ReserveFrame(w, req, c);
    case SaveOrder(items, discount, promoId) => SaveFrame(w, req, items, discount, promoId, c);
    case _ => SameSide(w, CreateStep(w, req, move, c));
  }

  lemma ReserveFrame(w: World, req: Id, c: Creating)
    ensures OrderSide(w, CreateStep(w, req, ReserveSeat, c))
  {
    hide OrderSide;
    SameSide(w, CreateStep(w, req, ReserveSeat, c));
  }

  lemma SaveFrame(w: World, req: Id, items: seq<OrderItem>, discount: int, promoId: Option<Id>, c: Creating)
    ensures OrderSide(w, CreateStep(w, req, SaveOrder(items, discount, promoId), c))
  {
    hide OrderSide, Prepared;
    SameSide(w, CreateStep(w, req, SaveOrder(items, discount, promoId), c));
  }

  /** Existing orders untouched, and any new one PENDING. */
  lemma SameSide(w: World, n: World)
    requires n.store == w.store && n.orchestrating == w.orchestrating && n.approvals == w.approvals
    requires n.unconfirmed == w.unconfirmed && n.venue.sold == w.venue.sold && n.paying == w.paying
    requires n.releasing.Keys <= w.releasing.Keys
    requires w.orders <= n.orders && |n.tokens| - |w.tokens| == |n.orders| - |w.orders|
    requires forall o :: |w.orders| <= o < |n.orders| ==> n.orders[o].status == Orders.PENDING
    ensures OrderSide(w, n)
  {
    if OrdersOk(w) {
      forall o | 0 <= o < |n.orders| && Confirmed(n, o) ensures o in n.approvals {
        assert o < |w.orders| && Confirmed(w, o);
      }
      forall o | o in n.releasing ensures o < |n.orders| && n.orders[o].status == Orders.CANCELLED {
        assert o in w.releasing.Keys;
      }
    }
  }

  lemma ReleaseFrame(w: World, o: Id, move: ReleaseMove, r: Releasing)
    requires o in w.releasing && o < |w.orders|
    ensures OrderSide(w, ReleaseStep(w, o, move, r))
  {
    var n := ReleaseStep(w, o, move, r);
    assert n.orders == w.orders && n.tokens == w.tokens && n.releasing.Keys <= w.releasing.Keys;
    SameSide(w, n);
  }

  lemma PaidStore(store: Payments.Store, o: Id, how: Orders.PaymentMethod)
    ensures StoreMoves(store, Payments.Initiate(store, o, how).0, None)
    ensures StoreMoves(store, Payments.SubmitProof(store, o, how).0, None)
  {
  }

  lemma PayFrame(w: World, req: Id, move: PayMove)
    requires Inv(w) && req in w.paying
    ensures var n := PayStep(w, req, move, w.paying[req]); StoreSide(w, n, None) && MethodsOk(n)
  {
    var p := w.paying[req];
    var n := PayStep(w, req, move, p);
    PaidStore(w.store, p.orderId, p.paymentMethod);
    assert StoreMoves(w.store, w.store, None);
    PaidMethods(w, req, move);
  }

  lemma PaidMethods(w: World, req: Id, move: PayMove)
    requires MethodsOk(w) && req in w.paying
    ensures MethodsOk(PayStep(w, req, move, w.paying[req]))
  {
  }

  lemma ReviewedMoves(store: Payments.Store, notice: Notice)
    ensures var (after, approved) := Reviewed(store, notice);
      && StoreMoves(store, after, approved) && after.payments.Keys == store.payments.Keys && |after.proofs| == |store.proofs|
      && (approved.Some? ==> approved.value in after.payments)
  {
    match notice
    case Webhook(orderId, signed, statusCode) =>
    case ApproveProof(id) =>
      if id < |store.proofs| { assert store.proofs[id].orderId == store.proofs[id].orderId; }
    case RejectProof(id) =>
      if id < |store.proofs| { assert store.proofs[id].orderId == store.proofs[id].orderId; }
  }

  lemma ReviewFrame(w: World, req: Id, notice: Notice)
    requires Inv(w) && req !in w.orchestrating
    ensures var n := ReviewStep(w, req, notice); StoreSide(w, n, Reviewed(w.store, notice).1) && MethodsOk(n)
  {
    var n := ReviewStep(w, req, notice);
    var approved := Reviewed(w.store, notice).1;
    ReviewedMoves(w.store, notice);
    if approved.Some? { assert n.orchestrating[req] == ToConfirm(approved.value); }
  }

  lemma ConfirmKeeps(w: World, req: Id, o: Id, arrives: bool, answers: bool)
    requires Inv(w) && req in w.orchestrating && w.orchestrating[req] == ToConfirm(o)
    ensures Inv(ConfirmStep(w, req, o, arrives, answers)) && Forward(w, ConfirmStep(w, req, o, arrives, answers))
  {
    var n := ConfirmStep(w, req, o, arrives, answers);
    hide Inv, Forward;
    ConfirmMoves(w, req, o, arrives, answers);
    OrchestrationSideKeeps(w, n, req);
  }

  lemma ConfirmMoves(w: World, req: Id, o: Id, arrives: bool, answers: bool)
    requires Inv(w) && req in w.orchestrating && w.orchestrating[req] == ToConfirm(o)
    ensures var n := ConfirmStep(w, req, o, arrives, answers);
      && OrchestrationSide(w, n, req) && n.venue == w.venue && OrdersOk(n) && LedgerOk(n)
      && (req in n.orchestrating ==> n.orchestrating[req] == ToFetchOrder(o) && Confirmed(n, o) && o in n.approvals)
      && (req !in n.orchestrating ==> o in n.unconfirmed)
  {
    hide MethodsOk, ApprovalsOk, OwnsSeat;
    var n := ConfirmStep(w, req, o, arrives, answers);
    assert OrchestrationSide(w, n, req) && n.venue == w.venue;
    OwnersKept(w, n);
  }

  lemma ProceedKeeps(w: World, req: Id, next: Option<Orchestration>)
    requires Inv(w) && req in w.orchestrating && !w.orchestrating[req].ToConfirm?
    requires next.Some? ==> next.value.orderId == w.orchestrating[req].orderId
    ensures Inv(Proceed(w, req, next)) && Forward(w, Proceed(w, req, next))
  {
    var n := Proceed(w, req, next);
    OwnersKept(w, n);
    assert OrdersOk(n) && LedgerOk(n);
    OrchestrationSideKeeps(w, n, req);
  }

  lemma SaleKeeps(w: World, n: World, versionId: Id, o: Id, i: nat)
    requires Inv(w) && Confirmed(w, o) && i < |w.orders[o].items| && w.orders[o].items[i].seatId.Some?
    requires n == w.(venue := MarkSold(w.venue, SeatKey(versionId, w.orders[o].items[i].seatId.value), Some(o)))
    ensures Inv(n) && Forward(w, n)
  {
    hide MarkSold, LedgerOk, LedgerGrows, OwnsSeat;
    SaleIsRecorded(w, n, versionId, o, i);
    forall p | AwaitsConfirm(w, p) ensures AwaitsConfirm(n, p) { StillAwaiting(w, n, p); }
    ApprovalsFrame(w, n);
  }

  lemma SaleIsRecorded(w: World, n: World, versionId: Id, o: Id, i: nat)
    requires LedgerOk(w) && Confirmed(w, o) && i < |w.orders[o].items| && w.orders[o].items[i].seatId.Some?
    requires n == w.(venue := MarkSold(w.venue, SeatKey(versionId, w.orders[o].items[i].seatId.value), Some(o)))
    ensures LedgerOk(n) && LedgerGrows(w, n)
  {
    var seatId := w.orders[o].items[i].seatId.value;
    OwnersKept(w, n);
    assert OwnsSeat(w, o, seatId);
    assert n.venue.sold == w.venue.sold || n.venue.sold == w.venue.sold[SeatKey(versionId, seatId) := Some(o)];
    hide MarkSold, OwnsSeat;
  }

  lemma ForwardTrans(a: World, b: World, c: World)
    requires Forward(a, b) && Forward(b, c)
    ensures Forward(a, c)
  {
  }

  /** A delivered mark is the orchestration's own step followed by one sale. */
  lemma MarkIsSale(w: World, req: Id, lost: bool, o: Id, versionId: Id, i: nat)
    requires o < |w.orders| && i < |w.orders[o].items|
    ensures var mid := Proceed(w, req, Some(Marking(o, versionId, i + 1)));
      && mid.orders == w.orders
      && OrchestrateStep(w, req, Mark(lost), Marking(o, versionId, i))
         == if lost || w.orders[o].items[i].seatId.None? then mid
            else mid.(venue := MarkSold(mid.venue, SeatKey(versionId, w.orders[o].items[i].seatId.value), Some(o)))
  {
  }

  lemma MovedOnKeeps(w: World, req: Id, o: Id, versionId: Id, i: nat, mid: World)
    requires Inv(w) && req in w.orchestrating && w.orchestrating[req] == Marking(o, versionId, i)
    requires mid == Proceed(w, req, Some(Marking(o, versionId, i + 1)))
    ensures Inv(mid) && Forward(w, mid) && Confirmed(mid, o)
  {
    ProceedKeeps(w, req, Some(Marking(o, versionId, i + 1)));
  }

  lemma MarkKeeps(w: World, req: Id, lost: bool, o: Id, versionId: Id, i: nat, n: World)
    requires Inv(w) && req in w.orchestrating && w.orchestrating[req] == Marking(o, versionId, i)
    requires o < |w.orders| && i < |w.orders[o].items|
    requires n == OrchestrateStep(w, req, Mark(lost), Marking(o, versionId, i))
    ensures Inv(n) && Forward(w, n)
  {
    var mid := Proceed(w, req, Some(Marking(o, versionId, i + 1)));
    MarkIsSale(w, req, lost, o, versionId, i);
    MovedOnKeeps(w, req, o, versionId, i, mid);
    if !lost && w.orders[o].items[i].seatId.Some? {
      SaleKeeps(mid, n, versionId, o, i);
      ForwardTrans(w, mid, n);
    }
  }

  lemma AnyMarkKeeps(w: World, req: Id, lost: bool, o: Id, versionId: Id, i: nat)
    requires Inv(w) && req in w.orchestrating && w.orchestrating[req] == Marking(o, versionId, i)
    ensures var n := OrchestrateStep(w, req, Mark(lost), Marking(o, versionId, i)); Inv(n) && Forward(w, n)
  {
    if o >= |w.orders| || i >= |w.orders[o].items| {
      MarkEnds(w, req, lost, o, versionId, i);
      ProceedKeeps(w, req, None);
    } else {
      MarkKeeps(w, req, lost, o, versionId, i, OrchestrateStep(w, req, Mark(lost), Marking(o, versionId, i)));
    }
  }

  lemma MarkEnds(w: World, req: Id, lost: bool, o: Id, versionId: Id, i: nat)
    requires o >= |w.orders| || i >= |w.orders[o].items|
    ensures OrchestrateStep(w, req, Mark(lost), Marking(o, versionId, i)) == Proceed(w, req, None)
  {
  }

  lemma Stays(w: World)
    ensures Forward(w, w)
  {
  }

  lemma OrchestrateKeeps(w: World, req: Id, move: OrchestrationMove)
    requires Inv(w) && req in w.orchestrating
    ensures var n := OrchestrateStep(w, req, move, w.orchestrating[req]); Inv(n) && Forward(w, n)
  {
    hide Inv, Forward;
    Stays(w);
    match (move, w.orchestrating[req])
    case (Confirm(arrives, answers), ToConfirm(o)) => ConfirmKeeps(w, req, o, arrives, answers);
    case (FetchOrder(lost), ToFetchOrder(o)) => ProceedKeeps(w, req, if lost then None else Some(ToFetchEvent(o)));
    case (FetchOrderEvent(lost), ToFetchEvent(o)) =>
      var versionId := if o < |w.orders| then Version(w, w.orders[o].eventId) else None;
      ProceedKeeps(w, req, if lost || versionId.None? then None else Some(Marking(o, versionId.value, 0)));
    case (Mark(lost), Marking(o, versionId, i)) => AnyMarkKeeps(w, req, lost, o, versionId, i);
    case _ =>
  }

  lemma QuietFrame(w: World, step: Step)
    requires step.Tick? || step.EditEvent? || step.CreateBegin?
    ensures OrderSide(w, Next(w, step))
  {
    SameSide(w, Next(w, step));
  }

  lemma BuyerFrame(w: World, call: BuyerCall)
    ensures OrderSide(w, BuyerStep(w, call))
  {
    var n := BuyerStep(w, call);
    assert n.venue.sold == w.venue.sold && n == w.(venue := n.venue);
    SameSide(w, n);
  }

  lemma PayFetchFrame(w: World, req: Id, o: Id)
    ensures OrderSide(w, Next(w, PayFetchOrder(req, o)))
  {
    var n := Next(w, PayFetchOrder(req, o));
    assert n == w.(paying := n.paying);
    SameSide(w, w);
  }

  lemma CancelFrame(w: World, o: Id)
    ensures OrderSide(w, Next(w, CancelSave(o)))
  {
    var n := Next(w, CancelSave(o));
    if n == w {
      SameSide(w, w);
    } else {
      assert n == w.(orders := n.orders, releasing := n.releasing);
      assert forall p: Id :: Confirmed(n, p) ==> Confirmed(w, p);
      if OrdersOk(w) { CancelledOk(w, o); }
    }
  }

  lemma CancelledOk(w: World, o: Id)
    requires OrdersOk(w) && o < |w.orders| && w.orders[o].status == Orders.PENDING
    ensures OrdersOk(Next(w, CancelSave(o)))
  {
    var n := Next(w, CancelSave(o));
    forall p | 0 <= p < |n.orders| && Confirmed(n, p) ensures p in n.approvals {
      assert Confirmed(w, p);
    }
  }

  lemma OrderSideFrame(w: World, step: Step)
    requires !step.Pay? && !step.Review? && !step.Orchestrate?
    ensures OrderSide(w, Next(w, step))
  {
    match step
    case Create(req, move) =>
      if req in w.creating { CreateFrame(w, req, move, w.creating[req]); } else { SameSide(w, w); }
    case Release(o, move) =>
      if o in w.releasing && o < |w.orders| { ReleaseFrame(w, o, move, w.releasing[o]); } else { SameSide(w, w); }
    case Buyer(call) => BuyerFrame(w, call);
    case CancelSave(o) => CancelFrame(w, o);
    case PayFetchOrder(req, o) => PayFetchFrame(w, req, o);
    case _ => QuietFrame(w, step);
  }

  /** One step: the invariant is kept, rows only move forward. */
  lemma NextKeeps(w: World, step: Step)
    requires Inv(w)
    ensures Inv(Next(w, step)) && Forward(w, Next(w, step))
  {
    hide Inv, Forward, OrderSide, StoreSide, MethodsOk;
    Stays(w);
    match step
    case Pay(req, move) =>
      if req in w.paying {
        PayFrame(w, req, move);
        StoreSideKeeps(w, Next(w, step), None);
      }
    case Review(req, notice) =>
      if req !in w.orchestrating {
        ReviewFrame(w, req, notice);
        StoreSideKeeps(w, Next(w, step), Reviewed(w.store, notice).1);
      }
    case Orchestrate(req, move) => if req in w.orchestrating { OrchestrateKeeps(w, req, move); }
    case _ =>
      OrderSideFrame(w, step);
      OrderSideKeeps(w, Next(w, step));
  }
}
