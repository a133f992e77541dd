/** The protocol's promises over whole runs: any number of buyers, any interleaving, any lost
    call. Where a natural promise fails, the run that breaks it and the exact condition. */
module ProtocolRuns {
  import opened Common
  import opened Venue
  import opened Protocol
  import opened ProtocolSafety
  import Pricing
  import Orders
  import Payments

  lemma {:induction false} RunKeeps(w: World, steps: seq<Step>)
    requires Inv(w)
    ensures Inv(Run(w, steps))
    decreases |steps|
  {
    if steps != [] {
      RunKeeps(w, steps[..|steps| - 1]);
      NextKeeps(Run(w, steps[..|steps| - 1]), steps[|steps| - 1]);
    }
  }

  lemma StartIsSafe(eventVersion: map<Id, Option<Id>>)
    ensures Inv(Start(eventVersion))
  {
  }

  lemma {:induction false} RunMovesForward(w: World, steps: seq<Step>, i: nat)
    requires Inv(w) && i <= |steps|
    ensures Forward(Run(w, steps[..i]), Run(w, steps))
    decreases |steps|
  {
    if i == |steps| {
      assert steps[..i] == steps;
    } else {
      var most := steps[..|steps| - 1];
      RunMovesForward(w, most, i);
      assert most[..i] == steps[..i];
      RunKeeps(w, most);
      NextKeeps(Run(w, most), steps[|steps| - 1]);
      ForwardTrans(Run(w, steps[..i]), Run(w, most), Run(w, steps));
    }
  }

  // ----- Orders and the sold ledger -----

  /** Only PENDING, CONFIRMED and CANCELLED are ever reached; the last two are absorbing, and
      whatever an order was saved with stays as it was. */
  lemma OrderStatusesAreAbsorbing(eventVersion: map<Id, Option<Id>>, steps: seq<Step>, i: nat, o: nat)
    requires i <= |steps| && o < |Run(Start(eventVersion), steps[..i]).orders|
    ensures var (earlier, later) := (Run(Start(eventVersion), steps[..i]), Run(Start(eventVersion), steps));
      && o < |later.orders|
      && later.orders[o].status in {Orders.PENDING, Orders.CONFIRMED, Orders.CANCELLED}
      && (earlier.orders[o].status in {Orders.CONFIRMED, Orders.CANCELLED} ==> later.orders[o] == earlier.orders[o])
      && later.orders[o].(status := Orders.PENDING) == earlier.orders[o].(status := Orders.PENDING)
  {
    StartIsSafe(eventVersion);
    RunKeeps(Start(eventVersion), steps);
    RunMovesForward(Start(eventVersion), steps, i);
  }

  /** Every sold row names a CONFIRMED order that contains the seat, and a row of any earlier
      moment is still there with the same owner. */
  lemma SoldRowsTellTheTruth(eventVersion: map<Id, Option<Id>>, steps: seq<Step>, i: nat)
    requires i <= |steps|
    ensures var (earlier, later) := (Run(Start(eventVersion), steps[..i]), Run(Start(eventVersion), steps));
      && (forall key :: key in later.venue.sold ==>
            && later.venue.sold[key].Some? && Confirmed(later, later.venue.sold[key].value)
            && OwnsSeat(later, later.venue.sold[key].value, key.seatId))
      && (forall key :: key in earlier.venue.sold ==> key in later.venue.sold && later.venue.sold[key] == earlier.venue.sold[key])
  {
    StartIsSafe(eventVersion);
    RunKeeps(Start(eventVersion), steps);
    RunMovesForward(Start(eventVersion), steps, i);
  }

  // ----- No confirmation without an approval -----

  predicate Approves(w: World, step: Step, o: Id) {
    step.Review? && step.req !in w.orchestrating && Reviewed(w.store, step.notice).1 == Some(o)
  }

  lemma ApprovalsComeFromNotices(w: World, step: Step, o: Id)
    requires o in Next(w, step).approvals && o !in w.approvals
    ensures Approves(w, step, o)
  {
    match step
    case Pay(req, move) => StoreOnly(w, req, move);
    case Orchestrate(req, move) => OrchestrationsKeepTheStore(w, req, move);
    case Review(req, notice) =>
    case _ => OrderSideFrame(w, step);
  }

  lemma {:induction false} ApprovalHappened(w: World, steps: seq<Step>, o: Id)
    requires o in Run(w, steps).approvals && o !in w.approvals
    ensures exists i :: 0 <= i < |steps| && Approves(Run(w, steps[..i]), steps[i], o)
    decreases |steps|
  {
    var last := |steps| - 1;
    var most := steps[..last];
    if o in Run(w, most).approvals {
      ApprovalHappened(w, most, o);
      var i :| 0 <= i < |most| && Approves(Run(w, most[..i]), most[i], o);
      assert most[..i] == steps[..i];
      assert Approves(Run(w, steps[..i]), steps[i], o);
    } else {
      ApprovalsComeFromNotices(Run(w, most), steps[last], o);
      assert Approves(Run(w, steps[..last]), steps[last], o);
    }
  }

  /** Every CONFIRMED order has an approval of its own payment earlier in the run. */
  lemma ConfirmedOrdersWereApproved(eventVersion: map<Id, Option<Id>>, steps: seq<Step>, o: Id)
    requires Confirmed(Run(Start(eventVersion), steps), o)
    ensures exists i :: 0 <= i < |steps| && Approves(Run(Start(eventVersion), steps[..i]), steps[i], o)
  {
    StartIsSafe(eventVersion);
    RunKeeps(Start(eventVersion), steps);
    ApprovalHappened(Start(eventVersion), steps, o);
  }

  /** Orders are confirmed by nothing but an orchestration on its way to confirm them. */
  lemma ConfirmedByOrchestrationOnly(w: World, step: Step, o: Id)
    requires Confirmed(Next(w, step), o) && !Confirmed(w, o)
    ensures AwaitsConfirm(w, o)
  {
    match step
    case Pay(req, move) => StoreOnly(w, req, move);
    case Review(req, notice) =>
    case Orchestrate(req, move) => if req in w.orchestrating { ConfirmsOnlyItsOwn(w, req, move, o); }
    case _ => OrderSideFrame(w, step);
  }

  lemma ConfirmsOnlyItsOwn(w: World, req: Id, move: OrchestrationMove, o: Id)
    requires req in w.orchestrating && !Confirmed(w, o)
    requires Confirmed(OrchestrateStep(w, req, move, w.orchestrating[req]), o)
    ensures w.orchestrating[req] == ToConfirm(o)
  {
  }

  /** A confirmation ends, or goes on beyond its confirm call; the others stay. */
  predicate MovesOn(before: map<Id, Orchestration>, after: map<Id, Orchestration>, req: Id) {
    || after == before
    || after == before - {req}
    || (req in after && !after[req].ToConfirm? && after == before[req := after[req]])
  }

  lemma MovesTo(before: map<Id, Orchestration>, req: Id, t: Orchestration)
    requires !t.ToConfirm?
    ensures MovesOn(before, before[req := t], req)
  {
  }

  lemma MovesOff(before: map<Id, Orchestration>, req: Id)
    ensures MovesOn(before, before - {req}, req) && MovesOn(before, before, req)
  {
  }

  lemma OrchestrationsOnlyMoveOn(w: World, req: Id, move: OrchestrationMove, t: Orchestration)
    ensures MovesOn(w.orchestrating, OrchestrateStep(w, req, move, t).orchestrating, req)
  {
    hide MovesOn, Orders.Confirm, MarkSold;
    MovesOff(w.orchestrating, req);
    match (move, t)
    case (Confirm(arrives, answers), ToConfirm(o)) => MovesTo(w.orchestrating, req, ToFetchOrder(o));
    case (FetchOrder(lost), ToFetchOrder(o)) => MovesTo(w.orchestrating, req, ToFetchEvent(o));
    case (FetchOrderEvent(lost), ToFetchEvent(o)) =>
      if o < |w.orders| && Version(w, w.orders[o].eventId).Some? {
        MovesTo(w.orchestrating, req, Marking(o, Version(w, w.orders[o].eventId).value, 0));
      }
    case (Mark(lost), Marking(o, versionId, i)) => MovesTo(w.orchestrating, req, Marking(o, versionId, i + 1));
    case _ =>
  }

  lemma OnlyReviewsStart(w: World, step: Step, o: Id)
    requires AwaitsConfirm(Next(w, step), o) && !step.Review?
    ensures AwaitsConfirm(w, o)
  {
    hide PayStep, OrchestrateStep, CreateStep, ReleaseStep, BuyerStep;
    var n := Next(w, step);
    var r :| r in n.orchestrating && n.orchestrating[r] == ToConfirm(o);
    match step
    case Pay(req, move) => StoreOnly(w, req, move);
    case Orchestrate(req, move) => if req in w.orchestrating { OrchestrationsOnlyMoveOn(w, req, move, w.orchestrating[req]); }
    case _ => OrderSideFrame(w, step);
  }

  lemma ConfirmStartsAtApproval(w: World, step: Step, o: Id)
    requires AwaitsConfirm(Next(w, step), o) && !AwaitsConfirm(w, o)
    ensures Approves(w, step, o)
  {
    if step.Review? {
      hide Reviewed;
      var n := Next(w, step);
      var r :| r in n.orchestrating && n.orchestrating[r] == ToConfirm(o);
    } else {
      OnlyReviewsStart(w, step, o);
    }
  }

  lemma StoreOnly(w: World, req: Id, move: PayMove)
    ensures var n := Next(w, Pay(req, move)); n.orchestrating == w.orchestrating && n.orders == w.orders && n.approvals == w.approvals
  {
  }

  lemma OrchestrationsKeepTheStore(w: World, req: Id, move: OrchestrationMove)
    ensures var n := Next(w, Orchestrate(req, move)); n.store == w.store && n.approvals == w.approvals
  {
    if req in w.orchestrating {
      match (move, w.orchestrating[req])
      case (Confirm(arrives, answers), ToConfirm(p)) =>
      case (Mark(lost), Marking(p, versionId, i)) =>
      case _ =>
    }
  }

  // ----- When an approval is final -----

  /** The payment of a PAYHERE order stays APPROVED whatever notices are redelivered or reordered. */
  lemma PayHereApprovalIsFinal(eventVersion: map<Id, Option<Id>>, steps: seq<Step>, i: nat, o: Id)
    requires i <= |steps| && PayHereApproved(Run(Start(eventVersion), steps[..i]), o)
    ensures PayHereApproved(Run(Start(eventVersion), steps), o)
  {
    StartIsSafe(eventVersion);
    RunMovesForward(Start(eventVersion), steps, i);
  }

  predicate HasOpenProof(store: Payments.Store, o: Id) {
    exists p :: 0 <= p < |store.proofs| && store.proofs[p] == Payments.Proof(o, Payments.AWAITING)
  }

  lemma SettledStays(w: World, step: Step, o: Id)
    requires Approved(w.store, o) && !HasOpenProof(w.store, o)
    ensures Approved(Next(w, step).store, o) && !HasOpenProof(Next(w, step).store, o)
  {
    match step
    case Orchestrate(req, move) => OrchestrationsKeepTheStore(w, req, move);
    case Pay(req, move) => if req in w.paying { SettledAfterPay(w, req, move, o); }
    case Review(req, notice) =>
      SettledAfterReview(w.store, notice, o);
      assert req !in w.orchestrating ==> Next(w, step).store == Reviewed(w.store, notice).0;
    case _ => OrderSideFrame(w, step);
  }

  lemma SettledAfterPay(w: World, req: Id, move: PayMove, o: Id)
    requires Approved(w.store, o) && !HasOpenProof(w.store, o) && req in w.paying
    ensures var n := PayStep(w, req, move, w.paying[req]); Approved(n.store, o) && !HasOpenProof(n.store, o)
  {
    var n := PayStep(w, req, move, w.paying[req]);
    forall p | 0 <= p < |n.store.proofs| ensures n.store.proofs[p] != Payments.Proof(o, Payments.AWAITING) {
      if p < |w.store.proofs| { assert w.store.proofs[p] != Payments.Proof(o, Payments.AWAITING); }
    }
  }

  lemma SettledAfterReview(store: Payments.Store, notice: Notice, o: Id)
    requires Approved(store, o) && !HasOpenProof(store, o)
    ensures Approved(Reviewed(store, notice).0, o) && !HasOpenProof(Reviewed(store, notice).0, o)
  {
    var after := Reviewed(store, notice).0;
    forall p | 0 <= p < |after.proofs| ensures after.proofs[p] != Payments.Proof(o, Payments.AWAITING) {
      assert store.proofs[p] != Payments.Proof(o, Payments.AWAITING);
    }
    match notice
    case RejectProof(id) => if id < |store.proofs| { assert store.proofs[id] != Payments.Proof(o, Payments.AWAITING); }
    case _ =>
  }

  lemma {:induction false} SettledForEver(w: World, steps: seq<Step>, o: Id)
    requires Approved(w.store, o) && !HasOpenProof(w.store, o)
    ensures Approved(Run(w, steps).store, o) && !HasOpenProof(Run(w, steps).store, o)
    decreases |steps|
  {
    if steps != [] {
      SettledForEver(w, steps[..|steps| - 1], o);
      SettledStays(Run(w, steps[..|steps| - 1]), steps[|steps| - 1], o);
    }
  }

  lemma {:induction false} FreshId(used: set<Id>) returns (id: Id)
    ensures forall u :: u in used ==> u < id
  {
    if used == {} {
      id := 0;
    } else {
      var u :| u in used;
      var bound := FreshId(used - {u});
      id := if u < bound then bound else u + 1;
      assert forall v :: v in used ==> v == u || v in used - {u};
    }
  }

  lemma Single(w: World, step: Step)
    ensures Run(w, [step]) == Next(w, step)
  {
    Extend(w, [], step);
    assert [] + [step] == [step];
  }

  lemma RejectedNow(w: World, req: Id, p: nat, o: Id)
    requires p < |w.store.proofs| && w.store.proofs[p] == Payments.Proof(o, Payments.AWAITING)
    requires req !in w.orchestrating
    ensures !Approved(Next(w, Review(req, RejectProof(p))).store, o)
  {
  }

  lemma RejectionUndoes(w: World, req: Id, p: nat, o: Id)
    requires p < |w.store.proofs| && w.store.proofs[p] == Payments.Proof(o, Payments.AWAITING)
    requires req !in w.orchestrating
    ensures !Approved(Run(w, [Review(req, RejectProof(p))]).store, o)
  {
    var step := Review(req, RejectProof(p));
    Single(w, step);
    RejectedNow(w, req, p, o);
  }

  /** Exactly when an approval can be lost: it is final in every continuation if and only if no
      unreviewed proof still points at the order; otherwise rejecting that proof undoes it. */
  lemma ApprovalIsFinalExactly(w: World, o: Id)
    requires Approved(w.store, o)
    ensures (forall steps :: Approved(Run(w, steps).store, o)) <==> !HasOpenProof(w.store, o)
  {
    if HasOpenProof(w.store, o) {
      var p :| 0 <= p < |w.store.proofs| && w.store.proofs[p] == Payments.Proof(o, Payments.AWAITING);
      var req := FreshId(w.orchestrating.Keys);
      RejectionUndoes(w, req, p, o);
      assert !Approved(Run(w, [Review(req, RejectProof(p))]).store, o);
    } else {
      forall steps ensures Approved(Run(w, steps).store, o) { SettledForEver(w, steps, o); }
    }
  }

  // ----- When an approved order can still be confirmed -----

  /** This continuation confirms the order. */
  predicate Confirms(w: World, steps: seq<Step>, o: Id) {
    Confirmed(Run(w, steps), o)
  }

  /** An unpaid order that somebody can still pay for, or that somebody is on the way to confirm. */
  ghost predicate Confirmable(w: World, o: Id) {
    && o < |w.orders| && w.orders[o].status == Orders.PENDING
    && (Approved(w.store, o) ==> AwaitsConfirm(w, o) || HasOpenProof(w.store, o))
  }

  /** Not confirmed, and past saving: cancelled, or approved with nobody on the way and no proof left. */
  ghost predicate Blocked(w: World, o: Id) {
    Inv(w) && o < |w.orders| && !Confirmed(w, o) && !Confirmable(w, o)
  }

  /** A redelivered notice about an approved payment returns early, and every proof has been reviewed. */
  lemma NoSecondApproval(w: World, notice: Notice, o: Id)
    requires Approved(w.store, o) && !HasOpenProof(w.store, o)
    ensures Reviewed(w.store, notice).1 != Some(o)
  {
    match notice
    case ApproveProof(p) => if p < |w.store.proofs| { assert w.store.proofs[p] != Payments.Proof(o, Payments.AWAITING); }
    case _ =>
  }

  lemma BlockedStays(w: World, step: Step, o: Id)
    requires Blocked(w, o)
    ensures Blocked(Next(w, step), o)
  {
    var n := Next(w, step);
    NextKeeps(w, step);
    if w.orders[o].status == Orders.PENDING {
      SettledStays(w, step, o);
      if Confirmed(n, o) { ConfirmedByOrchestrationOnly(w, step, o); }
      if AwaitsConfirm(n, o) {
        ConfirmStartsAtApproval(w, step, o);
        NoSecondApproval(w, step.notice, o);
      }
    }
  }

  lemma {:induction false} BlockedForEver(w: World, steps: seq<Step>, o: Id)
    requires Blocked(w, o)
    ensures Blocked(Run(w, steps), o)
    decreases |steps|
  {
    if steps != [] {
      BlockedForEver(w, steps[..|steps| - 1], o);
      BlockedStays(Run(w, steps[..|steps| - 1]), steps[|steps| - 1], o);
    }
  }

  lemma ConfirmArrives(w: World, o: Id) returns (steps: seq<Step>)
    requires AwaitsConfirm(w, o) && o < |w.orders| && w.orders[o].status == Orders.PENDING
    ensures Confirmed(Run(w, steps), o)
  {
    var req :| req in w.orchestrating && w.orchestrating[req] == ToConfirm(o);
    steps := [Orchestrate(req, Confirm(true, true))];
    Single(w, steps[0]);
  }

  /** A notice that approves the order's payment, and then the confirm call. */
  lemma ApprovalConfirms(w: World, notice: Notice, o: Id) returns (steps: seq<Step>)
    requires o < |w.orders| && w.orders[o].status == Orders.PENDING && Reviewed(w.store, notice).1 == Some(o)
    ensures Confirmed(Run(w, steps), o)
  {
    var req := FreshId(w.orchestrating.Keys);
    assert req !in w.orchestrating;
    var review := Review(req, notice);
    var approved := Next(w, review);
    ReviewAwaits(w, req, notice, o);
    var rest := ConfirmArrives(approved, o);
    steps := [review] + rest;
    Single(w, review);
    RunConcat(w, [review], rest);
  }

  lemma ReviewAwaits(w: World, req: Id, notice: Notice, o: Id)
    requires req !in w.orchestrating && Reviewed(w.store, notice).1 == Some(o)
    ensures Next(w, Review(req, notice)).orders == w.orders && AwaitsConfirm(Next(w, Review(req, notice)), o)
  {
    assert Next(w, Review(req, notice)).orchestrating[req] == ToConfirm(o);
  }

  /** An unapproved PENDING order can be paid: by PayHere or with a proof, then by a signed notice. */
  lemma UnpaidIsConfirmable(w: World, o: Id) returns (steps: seq<Step>)
    requires o < |w.orders| && w.orders[o].status == Orders.PENDING && !Approved(w.store, o)
    ensures Confirmed(Run(w, steps), o)
  {
    var req := FreshId(w.paying.Keys);
    assert req !in w.paying;
    var fetch, pay := PayFetchOrder(req, o), Pay(req, if w.orders[o].paymentMethod == Orders.PAYHERE then Initiate else SubmitProof);
    PaymentOpens(w, req, o);
    var ready := Next(Next(w, fetch), pay);
    var rest := ApprovalConfirms(ready, Webhook(o, true, "2"), o);
    steps := [fetch, pay] + rest;
    Pair(w, [], fetch, pay);
    SameRun(w, [] + [fetch, pay], [fetch, pay]);
    RunConcat(w, [fetch, pay], rest);
  }

  lemma PaymentOpens(w: World, req: Id, o: Id)
    requires o < |w.orders| && w.orders[o].status == Orders.PENDING && !Approved(w.store, o) && req !in w.paying
    ensures var move := if w.orders[o].paymentMethod == Orders.PAYHERE then Initiate else SubmitProof;
      var ready := Next(Next(w, PayFetchOrder(req, o)), Pay(req, move));
      ready.orders == w.orders && Reviewed(ready.store, Webhook(o, true, "2")).1 == Some(o)
  {
    var how := w.orders[o].paymentMethod;
    var fetched := Next(w, PayFetchOrder(req, o));
    assert fetched == w.(paying := w.paying[req := Paying(o, how)]);
  }

  /** Exactly when an order is confirmed in some continuation: it is already, or it is still PENDING and,
      if its payment is approved, a confirm call is on its way or an unreviewed proof is left. */
  lemma ConfirmableExactly(w: World, o: Id)
    requires Inv(w) && o < |w.orders|
    ensures (exists steps :: Confirms(w, steps, o)) <==> Confirmed(w, o) || Confirmable(w, o)
  {
    if Confirmed(w, o) {
      var none: seq<Step> := [];
      assert Confirms(w, none, o);
    } else if Confirmable(w, o) {
      ConfirmableIsConfirmed(w, o);
    } else {
      forall steps ensures !Confirms(w, steps, o) { BlockedForEver(w, steps, o); }
    }
  }

  lemma ConfirmableIsConfirmed(w: World, o: Id)
    requires Confirmable(w, o) && Inv(w)
    ensures exists steps :: Confirms(w, steps, o)
  {
    if !Approved(w.store, o) {
      var steps := UnpaidIsConfirmable(w, o);
      assert Confirms(w, steps, o);
    } else if AwaitsConfirm(w, o) {
      var steps := ConfirmArrives(w, o);
      assert Confirms(w, steps, o);
    } else {
      var p :| 0 <= p < |w.store.proofs| && w.store.proofs[p] == Payments.Proof(o, Payments.AWAITING);
      var steps := ApprovalConfirms(w, ApproveProof(p), o);
      assert Confirms(w, steps, o);
    }
  }

  /** APPROVED does imply CONFIRMED in every run, unless a confirm call is still on its way or one failed. */
  lemma ApprovedIsConfirmedUnlessItFailed(eventVersion: map<Id, Option<Id>>, steps: seq<Step>, o: Id)
    requires var w := Run(Start(eventVersion), steps);
      Approved(w.store, o) && !AwaitsConfirm(w, o) && o !in w.unconfirmed
    ensures Confirmed(Run(Start(eventVersion), steps), o)
  {
    StartIsSafe(eventVersion);
    RunKeeps(Start(eventVersion), steps);
  }

  /** Paid, and never to be confirmed. */
  ghost predicate Stranded(w: World, o: Id) {
    Approved(w.store, o) && forall steps :: !Confirms(w, steps, o)
  }

  /** For an approved order, by either method: stranded exactly when it is not confirmed and is
      cancelled already, or has neither a confirm call on its way nor an unreviewed proof. */
  lemma StrandedExactly(w: World, o: Id)
    requires Inv(w) && Approved(w.store, o)
    ensures o < |w.orders|
    ensures Stranded(w, o) <==>
      (!Confirmed(w, o) && (w.orders[o].status == Orders.CANCELLED || (!AwaitsConfirm(w, o) && !HasOpenProof(w.store, o))))
  {
    ConfirmableExactly(w, o);
    assert Confirmable(w, o) <==> w.orders[o].status == Orders.PENDING && (AwaitsConfirm(w, o) || HasOpenProof(w.store, o));
    if Stranded(w, o) {
      assert !(exists steps :: Confirms(w, steps, o));
    } else {
      var steps :| Confirms(w, steps, o);
    }
  }

  lemma Extend(w: World, steps: seq<Step>, step: Step)
    ensures Run(w, steps + [step]) == Next(Run(w, steps), step)
  {
    assert (steps + [step])[..|steps|] == steps;
  }

  lemma Pair(w: World, steps: seq<Step>, first: Step, second: Step)
    ensures Run(w, steps + [first, second]) == Next(Next(Run(w, steps), first), second)
  {
    SameRun(w, steps + [first, second], steps + [first] + [second]);
    Extend(w, steps, first);
    Extend(w, steps + [first], second);
  }

  lemma SameRun(w: World, a: seq<Step>, b: seq<Step>)
    requires a == b
    ensures Run(w, a) == Run(w, b)
  {
  }

  lemma {:induction false} RunConcat(w: World, first: seq<Step>, rest: seq<Step>)
    ensures Run(w, first + rest) == Run(Run(w, first), rest)
    decreases |rest|
  {
    if rest == [] {
      SameRun(w, first + rest, first);
    } else {
      hide Run, Next;
      var most, last := rest[..|rest| - 1], rest[|rest| - 1];
      RunConcat(w, first, most);
      LastApart(first, rest);
      Extend(w, first + most, last);
      Extend(Run(w, first), most, last);
    }
  }

  lemma LastApart(first: seq<Step>, rest: seq<Step>)
    requires rest != []
    ensures first + rest == (first + rest[..|rest| - 1]) + [rest[|rest| - 1]] && rest == rest[..|rest| - 1] + [rest[|rest| - 1]]
  {
  }

  /** One buyer takes one ticket without a seat, for an event without a seat map. */
  function Checkout(how: Orders.PaymentMethod): seq<Step> {
    [CreateBegin(0, 1, 7, how, [Orders.ItemInput(3, None, None)]), Step.Create(0, TakeUnseated)]
    + [Step.Create(0, SaveOrder([Pricing.OrderItem(3, None, None, 500)], 0, None))]
  }

  const ONE_EVENT := map[7 := None]

  function CheckedOut(how: Orders.PaymentMethod, store: Payments.Store): World {
    Start(ONE_EVENT).(
      orders := [Orders.Order(1, 7, Orders.PENDING, 500, 0, 500, None, how, [Pricing.OrderItem(3, None, None, 500)])],
      tokens := [[None]], store := store)
  }

  lemma CheckoutRun(how: Orders.PaymentMethod)
    ensures Run(Start(ONE_EVENT), Checkout(how)) == CheckedOut(how, Payments.EMPTY)
  {
    var w := Start(ONE_EVENT);
    var begin, take := Checkout(how)[0], Checkout(how)[1];
    Pair(w, [], begin, take);
    assert [] + [begin, take] == [begin, take];
    Extend(w, [begin, take], Checkout(how)[2]);
    hide Run;
    ClaimedUnseated(how);
    SavedUnseated(how);
  }

  function Unseated(how: Orders.PaymentMethod): World {
    Start(ONE_EVENT).(creating := map[0 := Creating(1, 7, None, how, [Orders.ItemInput(3, None, None)], 1, false)])
  }

  lemma ClaimedUnseated(how: Orders.PaymentMethod)
    ensures Next(Next(Start(ONE_EVENT), Checkout(how)[0]), Checkout(how)[1]) == Unseated(how)
  {
  }

  lemma SavedUnseated(how: Orders.PaymentMethod)
    ensures Next(Unseated(how), Checkout(how)[2]) == CheckedOut(how, Payments.EMPTY)
  {
    assert Pricing.Sum([Pricing.OrderItem(3, None, None, 500)]) == 500;
    assert TokensOf([Orders.ItemInput(3, None, None)]) == [None];
    assert Unseated(how).creating - {0} == map[];
  }

  lemma PayHereStarted(w: World, o: Id)
    requires o < |w.orders| && w.orders[o].status == Orders.PENDING && w.orders[o].paymentMethod == Orders.PAYHERE
    requires w.paying == map[]
    ensures Next(Next(w, PayFetchOrder(0, o)), Pay(0, Initiate)) == w.(store := Payments.Initiate(w.store, o, Orders.PAYHERE).0)
  {
    assert w.paying[0 := Paying(o, Orders.PAYHERE)] - {0} == map[];
  }

  lemma ConfirmLost(w: World, o: Id)
    requires o in w.store.payments && w.store.payments[o].status == Payments.AWAITING && w.orchestrating == map[]
    ensures Next(Next(w, Review(0, Webhook(o, true, "2"))), Orchestrate(0, Confirm(false, false)))
      == w.(store := Payments.Webhook(w.store, o, true, "2").0, approvals := w.approvals + {o}, unconfirmed := w.unconfirmed + {o})
  {
    assert w.orchestrating[0 := ToConfirm(o)] - {0} == map[];
  }

  /** The order is paid through PayHere, and the confirm call is lost. */
  const LOST_CONFIRM: seq<Step> := Checkout(Orders.PAYHERE) + [PayFetchOrder(0, 0), Pay(0, Initiate)]
    + [Review(0, Webhook(0, true, "2")), Orchestrate(0, Confirm(false, false))]

  lemma LostConfirmRun()
    ensures var store := Payments.Initiate(Payments.EMPTY, 0, Orders.PAYHERE).0;
      Run(Start(ONE_EVENT), LOST_CONFIRM)
      == CheckedOut(Orders.PAYHERE, Payments.Webhook(store, 0, true, "2").0).(approvals := {0}, unconfirmed := {0})
  {
    var w := Start(ONE_EVENT);
    CheckoutRun(Orders.PAYHERE);
    var paid := Checkout(Orders.PAYHERE) + [PayFetchOrder(0, 0), Pay(0, Initiate)];
    Pair(w, Checkout(Orders.PAYHERE), PayFetchOrder(0, 0), Pay(0, Initiate));
    PayHereStarted(CheckedOut(Orders.PAYHERE, Payments.EMPTY), 0);
    Pair(w, paid, Review(0, Webhook(0, true, "2")), Orchestrate(0, Confirm(false, false)));
    ConfirmLost(Run(w, paid), 0);
  }

  /** APPROVED does not imply CONFIRMED: one lost call strands the order, and no redelivery repairs it. */
  lemma ApprovedOrdersCanBeStranded()
    ensures Stranded(Run(Start(ONE_EVENT), LOST_CONFIRM), 0)
  {
    StartIsSafe(ONE_EVENT);
    RunKeeps(Start(ONE_EVENT), LOST_CONFIRM);
    LostConfirmRun();
    StrandedExactly(Run(Start(ONE_EVENT), LOST_CONFIRM), 0);
  }

  const PAYING: seq<Step> := Checkout(Orders.PAYHERE) + [PayFetchOrder(0, 0), Pay(0, Initiate)]

  /** The notice arrives, the buyer cancels the PENDING order, and the confirm call is refused. */
  const CANCELLED_FIRST: seq<Step> := PAYING + [Review(0, Webhook(0, true, "2")), CancelSave(0)] + [Orchestrate(0, Confirm(true, true))]

  lemma CancelledFirst(w: World, o: Id)
    requires o in w.store.payments && w.store.payments[o].status == Payments.AWAITING && w.orchestrating == map[]
    requires o < |w.orders| && w.orders[o].status == Orders.PENDING
    ensures var n := Next(Next(w, Review(0, Webhook(o, true, "2"))), CancelSave(o));
      && Approved(n.store, o) && o < |n.orders| && n.orders[o].status == Orders.CANCELLED && 0 in n.orchestrating
      && n.orchestrating[0] == ToConfirm(o)
  {
    var approved := Next(w, Review(0, Webhook(o, true, "2")));
    WebhookApproves(w, o);
    hide ReviewStep;
  }

  lemma WebhookApproves(w: World, o: Id)
    requires o in w.store.payments && w.store.payments[o].status == Payments.AWAITING && w.orchestrating == map[]
    ensures var n := Next(w, Review(0, Webhook(o, true, "2")));
      Approved(n.store, o) && n.orders == w.orders && n.orchestrating == map[0 := ToConfirm(o)]
  {
  }

  lemma ConfirmRefused(w: World, o: Id)
    requires o < |w.orders| && w.orders[o].status == Orders.CANCELLED && 0 in w.orchestrating && w.orchestrating[0] == ToConfirm(o)
    ensures var n := Next(w, Orchestrate(0, Confirm(true, true))); n.orders == w.orders && n.store == w.store
  {
  }

  /** No call is lost here: an order cancelled between its approval and its confirmation is paid for good. */
  lemma CancelledOrdersCanBePaid()
    ensures var w := Run(Start(ONE_EVENT), CANCELLED_FIRST);
      Stranded(w, 0) && 0 < |w.orders| && w.orders[0].status == Orders.CANCELLED
  {
    var w := Start(ONE_EVENT);
    CheckoutRun(Orders.PAYHERE);
    Pair(w, Checkout(Orders.PAYHERE), PayFetchOrder(0, 0), Pay(0, Initiate));
    PayHereStarted(CheckedOut(Orders.PAYHERE, Payments.EMPTY), 0);
    Pair(w, PAYING, Review(0, Webhook(0, true, "2")), CancelSave(0));
    CancelledFirst(Run(w, PAYING), 0);
    var cancelled := PAYING + [Review(0, Webhook(0, true, "2")), CancelSave(0)];
    Extend(w, cancelled, Orchestrate(0, Confirm(true, true)));
    ConfirmRefused(Run(w, cancelled), 0);
    StartIsSafe(ONE_EVENT);
    RunKeeps(w, CANCELLED_FIRST);
    StrandedExactly(Run(w, CANCELLED_FIRST), 0);
  }

  lemma ProofSubmitted(w: World, o: Id)
    requires o < |w.orders| && w.orders[o].status == Orders.PENDING && w.orders[o].paymentMethod == Orders.PAYMENT_PROOF
    requires w.paying == map[]
    ensures Next(Next(w, PayFetchOrder(0, o)), Pay(0, SubmitProof))
      == w.(store := Payments.SubmitProof(w.store, o, Orders.PAYMENT_PROOF).0)
  {
    assert w.paying[0 := Paying(o, Orders.PAYMENT_PROOF)] - {0} == map[];
  }

  lemma ProofAccepted(w: World, p: nat)
    requires p < |w.store.proofs| && w.store.proofs[p].status == Payments.AWAITING && w.store.proofs[p].orderId in w.store.payments
    requires w.orchestrating == map[] && w.store.proofs[p].orderId < |w.orders|
    requires w.orders[w.store.proofs[p].orderId].status == Orders.PENDING
    ensures var n := Next(Next(w, Review(0, ApproveProof(p))), Orchestrate(0, Confirm(true, true)));
      && n.store == Payments.ApproveProof(w.store, p).0 && Confirmed(n, w.store.proofs[p].orderId)
      && n.orchestrating.Keys == {0}
  {
  }

  lemma ProofRejected(w: World, p: nat)
    requires 1 !in w.orchestrating
    ensures Next(w, Review(1, RejectProof(p))) == w.(store := Payments.RejectProof(w.store, p).0)
  {
  }

  const ONE_PROOF: seq<Step> := Checkout(Orders.PAYMENT_PROOF) + [PayFetchOrder(0, 0), Pay(0, SubmitProof)]
  const TWO_PROOFS: seq<Step> := ONE_PROOF + [PayFetchOrder(0, 0), Pay(0, SubmitProof)]
  const ACCEPTED: seq<Step> := TWO_PROOFS + [Review(0, ApproveProof(0)), Orchestrate(0, Confirm(true, true))]

  lemma TwoProofsRun()
    ensures Run(Start(ONE_EVENT), TWO_PROOFS) == CheckedOut(Orders.PAYMENT_PROOF, Payments.Store(
      map[0 := Payments.Payment(Orders.PAYMENT_PROOF, Payments.AWAITING)],
      [Payments.Proof(0, Payments.AWAITING), Payments.Proof(0, Payments.AWAITING)]))
  {
    var w := Start(ONE_EVENT);
    CheckoutRun(Orders.PAYMENT_PROOF);
    Pair(w, Checkout(Orders.PAYMENT_PROOF), PayFetchOrder(0, 0), Pay(0, SubmitProof));
    ProofSubmitted(CheckedOut(Orders.PAYMENT_PROOF, Payments.EMPTY), 0);
    Pair(w, ONE_PROOF, PayFetchOrder(0, 0), Pay(0, SubmitProof));
    ProofSubmitted(Run(w, ONE_PROOF), 0);
  }

  /** On the proof path an approval is not final even for a CONFIRMED order: two proofs are
      submitted, the first is approved and confirms the order, the second is then rejected. */
  lemma ConfirmedOrdersCanReadRejected()
    ensures var w := Run(Start(ONE_EVENT), ACCEPTED + [Review(1, RejectProof(1))]);
      Confirmed(w, 0) && 0 in w.store.payments && w.store.payments[0].status == Payments.REJECTED
  {
    var w := Start(ONE_EVENT);
    TwoProofsRun();
    var two := Run(w, TWO_PROOFS);
    Pair(w, TWO_PROOFS, Review(0, ApproveProof(0)), Orchestrate(0, Confirm(true, true)));
    ProofAccepted(two, 0);
    Extend(w, ACCEPTED, Review(1, RejectProof(1)));
    ProofRejected(Run(w, ACCEPTED), 1);
  }
}
