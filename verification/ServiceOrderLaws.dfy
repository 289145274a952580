/** Who may do what to a service order, and what it does: for each command the exact condition under which it succeeds,
    the order afterwards and the financial command it emits; and the same for each kind of trading result. */
module ServiceOrderLaws {

  import opened Optional
  import opened ServiceOrder

  ghost predicate FromBuyer(r: Order, c: Command) {
    !c.scope.platform && c.scope.organization == r.buyer
  }

  ghost predicate FromProvider(r: Order, c: Command) {
    !c.scope.platform && c.scope.organization == r.provider
  }

  /** The command is for the current version and comes from the party it is meant for. */
  ghost predicate MeantFor(r: Order, c: Command) {
    && c.version == r.version
    && match c.kind
       case Quotes => FromProvider(r, c)
       case Start => FromProvider(r, c)
       case Deliver => FromProvider(r, c)
       case ConfirmQuote => FromBuyer(r, c)
       case Accept => FromBuyer(r, c)
       case Reject => FromBuyer(r, c)
       case Cancel => FromBuyer(r, c)
       case RefundPropose => FromBuyer(r, c) || FromProvider(r, c)
       case RefundConfirm => FromBuyer(r, c) || FromProvider(r, c)
       case RefundReview => c.scope.platform
       case RefundReviewReject => c.scope.platform
       case OtherKind => false
  }

  /** Only such a command succeeds. */
  lemma OnlyTheRightParty(r: Order, c: Command, now: int)
    requires Transition(r, c, now).Done?
    ensures MeantFor(r, c)
  {
    hide FulfillmentGate, QuoteStep, ConfirmStep, CancelStep, StartStep, DeliverStep, JudgeStep, ProposeStep,
      ConfirmRefundStep, ReviewStep;
  }

  /** The order moved to a state, with nothing emitted. */
  ghost predicate Moved(outcome: Outcome, next: Order, now: int) {
    outcome == Done(next.(version := next.version + 1, updatedAt := now), None)
  }

  /** The order moved, and asks for money to move: by this actor, for this order and this amount. */
  ghost predicate Asked(outcome: Outcome, next: Order, c: Command, kind: FinancialKind, amount: int, now: int) {
    outcome == Done(next.(version := next.version + 1, updatedAt := now),
                    Some(FinancialCommand(CommandRef(next.id, kind, c.key), next.order, kind, c.scope.actor, next.buyer,
                                          next.provider, next.quote, amount)))
  }

  // ----- ordering -----

  ghost predicate Offer(c: Command) {
    && c.quote.Some? && c.quote.value.amount > 0 && c.quote.value.days >= 1
    && ValidText(c.quote.value.scope, 10000) && ValidText(c.quote.value.criteria, 5000)
  }

  lemma QuoteExactly(r: Order, c: Command, now: int)
    requires c.kind == Quotes
    ensures Transition(r, c, now).Done? <==>
            c.version == r.version && FromProvider(r, c) && r.state in {Requested, Quoted} && Offer(c)
    ensures Transition(r, c, now).Done? ==>
              Moved(Transition(r, c, now),
                    r.(state := Quoted,
                       quote := Some(Quote(1000, "CHANNEL_SETTLEMENT_NET_FLOOR_V2",
                                           "ecoservices-v2-channel-net-10-platform-fee-manual-expiry",
                                           c.quote.value.amount, c.quote.value.scope, c.quote.value.criteria,
                                           c.quote.value.days, if r.quote.Some? then r.quote.value.version + 1
                                             else 1))),
                    now)
  {
    hide ValidText;
  }

  /** The buyer confirms the very quote it saw, under the policy that quote names. */
  ghost predicate Confirms(r: Order, c: Command) {
    && r.quote.Some? && c.quote.Some? && c.quote.value.version == r.quote.value.version
    && c.policyAccepted == r.quote.value.policy && r.quote.value.commissionBps == 1000
    && ((r.quote.value.basis == "CHANNEL_SETTLEMENT_NET_FLOOR_V2" &&
         r.quote.value.policy == "ecoservices-v2-channel-net-10-platform-fee-manual-expiry") ||
        (r.quote.value.basis == "CUMULATIVE_NET_FLOOR_V1" &&
         r.quote.value.policy == "ecoservices-v1-10-platform-fee-manual-expiry"))
  }

  lemma ConfirmExactly(r: Order, c: Command, now: int)
    requires c.kind == ConfirmQuote
    ensures Transition(r, c, now).Done? <==>
            c.version == r.version && FromBuyer(r, c) && r.state.Quoted? && Confirms(r, c)
    ensures Transition(r, c, now).Done? ==>
              Asked(Transition(r, c, now),
                    r.(order := OrderOf(r.id), state := OrderPending, financialState := "AWAITING_PAYMENT"),
                    c, CreatePurchase, r.quote.value.amount, now)
  {
  }

  lemma CancelExactly(r: Order, c: Command, now: int)
    requires c.kind == Cancel
    ensures Transition(r, c, now).Done? <==>
            && c.version == r.version && FromBuyer(r, c)
            && (r.state in {Requested, Quoted} || (r.state in {OrderPending, PaidReady} && !r.fence && r.quote.Some?))
    ensures Transition(r, c, now).Done? && r.state in {Requested, Quoted} ==>
              Moved(Transition(r, c, now), r.(state := Cancelled), now)
    ensures Transition(r, c, now).Done? && r.state in {OrderPending, PaidReady} ==>
              Asked(Transition(r, c, now),
                    r.(state := CancelRequested, fence := true, financialState := "CANCELLATION_PENDING"),
                    c, CancelOrder, r.quote.value.amount, now)
  {
  }

  // ----- fulfillment -----

  /** A proof admits exactly this command, on this request at this version, for this payment. */
  ghost predicate AdmittedWork(r: Order, c: Command) {
    && ValidId(c.key) && c.id == r.id && c.version == r.version && c.fingerprint == OfCommand(Serialized(c))
    && r.quote.Some? && r.receipt != "" && !r.fence && r.financialState != "RECONCILIATION_REQUIRED"
    && c.fulfillmentProof.Some?
    && var p := c.fulfillmentProof.value;
       && p.receiptId != "" && |p.receiptId| <= 128 && p.result == OfProof(p.(result := NoDigest))
       && p.receipt == r.receipt
       && p.input == OfFulfillment(FulfillmentAdmission(c.scope, c.key, c.kind, r.id, r.order, r.receipt, c.fingerprint,
                                                        r.buyer, r.provider, r.version, r.quote.value.version))
  }

  /** What the gate asks, in those terms. */
  lemma GateExactly(r: Order, c: Command)
    requires IsFulfillment(c.kind) && c.version == r.version && Authorization(r, c).None?
    ensures FulfillmentGate(r, c).None? <==> AdmittedWork(r, c)
  {
    hide ValidId;
    assert RECONCILIATION_REQUIRED == "RECONCILIATION_REQUIRED";
    hide RECONCILIATION_REQUIRED;
  }

  lemma StartExactly(r: Order, c: Command, now: int)
    requires c.kind == Start
    ensures Transition(r, c, now).Done? <==> FromProvider(r, c) && r.state.PaidReady? && AdmittedWork(r, c)
    ensures Transition(r, c, now).Done? ==> Moved(Transition(r, c, now), r.(state := Servicing), now)
  {
    if c.version == r.version && FromProvider(r, c) {
      GateExactly(r, c);
    }
    hide FulfillmentGate;
  }

  lemma DeliverExactly(r: Order, c: Command, now: int)
    requires c.kind == Deliver
    ensures Transition(r, c, now).Done? <==>
            && FromProvider(r, c) && r.state.Servicing? && AdmittedWork(r, c)
            && c.delivery.Some? && ValidText(c.delivery.value.content, 10000) && |c.delivery.value.files| <= 10
    ensures Transition(r, c, now).Done? ==>
              Moved(Transition(r, c, now),
                    r.(state := AwaitingAcceptance,
                       delivery := Some(Delivery(if r.delivery.Some? then r.delivery.value.version + 1 else 1,
                                                 c.delivery.value.content, c.delivery.value.files, now, None))),
                    now)
  {
    if c.version == r.version && FromProvider(r, c) {
      GateExactly(r, c);
    }
    hide FulfillmentGate, ValidText;
  }

  /** The buyer judges the delivery it saw, once. */
  ghost predicate Judges(r: Order, c: Command) {
    && FromBuyer(r, c) && r.state.AwaitingAcceptance? && AdmittedWork(r, c)
    && r.delivery.Some? && c.deliveryVersion == r.delivery.value.version && r.acceptance.None?
  }

  lemma AcceptExactly(r: Order, c: Command, now: int)
    requires c.kind == Accept
    ensures Transition(r, c, now).Done? <==> Judges(r, c)
    ensures Transition(r, c, now).Done? ==>
              Asked(Transition(r, c, now),
                    r.(state := Accepted, acceptance := Some(CommandRef(r.id, Settle, c.key)),
                       acceptedDelivery := r.delivery.value.version, financialState := "SETTLEMENT_PENDING"),
                    c, Settle, r.quote.value.amount, now)
  {
    if c.version == r.version && FromBuyer(r, c) {
      GateExactly(r, c);
    }
    hide FulfillmentGate, ValidText;
  }

  lemma RejectExactly(r: Order, c: Command, now: int)
    requires c.kind == Reject
    ensures Transition(r, c, now).Done? <==> Judges(r, c) && ValidText(c.reason, 2000)
    ensures Transition(r, c, now).Done? ==>
              Moved(Transition(r, c, now),
                    r.(state := Servicing,
                       delivery := Some(r.delivery.value.(rejection :=
                         Some(DeliveryRejection(r.delivery.value.version, c.reason, c.scope.actor, now))))),
                    now)
  {
    if c.version == r.version && FromBuyer(r, c) {
      GateExactly(r, c);
    }
    hide FulfillmentGate, ValidText;
  }

  // ----- refunds -----

  lemma ProposeExactly(r: Order, c: Command, now: int)
    requires c.kind == RefundPropose
    ensures Transition(r, c, now).Done? <==>
            && c.version == r.version && (FromBuyer(r, c) || FromProvider(r, c))
            && r.state in {Servicing, AwaitingAcceptance, Accepted}
            && (r.refund.Some? ==> r.refund.value.state != Approved)
            && r.quote.Some? && 0 < c.refundAmount <= r.quote.value.amount && ValidText(c.reason, 2000)
            && c.refundable.Some? && c.refundAmount <= c.refundable.value
    ensures Transition(r, c, now).Done? ==>
              Moved(Transition(r, c, now),
                    r.(fence := true,
                       refund := Some(Refund(if r.refund.Some? then r.refund.value.version + 1 else 1, c.refundAmount,
                                             c.reason, FromBuyer(r, c), FromProvider(r, c), Negotiating, None))),
                    now)
  {
    hide ValidText;
  }

  ghost predicate Negotiates(r: Order, c: Command) {
    c.version == r.version && r.refund.Some? && r.refund.value.state.Negotiating? &&
      c.refundVersion == r.refund.value.version
  }

  /** A party confirms for itself; a buyer that is also the provider confirms as the buyer. */
  lemma ConfirmRefundExactly(r: Order, c: Command, now: int)
    requires c.kind == RefundConfirm
    ensures Transition(r, c, now).Done? <==> Negotiates(r, c) && (FromBuyer(r, c) || FromProvider(r, c))
    ensures Transition(r, c, now).Done? && FromBuyer(r, c) ==>
              Moved(Transition(r, c, now), r.(refund := Some(r.refund.value.(buyerConfirmed := true))), now)
    ensures Transition(r, c, now).Done? && !FromBuyer(r, c) ==>
              Moved(Transition(r, c, now), r.(refund := Some(r.refund.value.(providerConfirmed := true))), now)
  {
  }

  /** Declining a refund lifts the fence, unless the money is still in doubt. */
  lemma DeclineExactly(r: Order, c: Command, now: int)
    requires c.kind == RefundReviewReject
    ensures Transition(r, c, now).Done? <==> Negotiates(r, c) && c.scope.platform && ValidText(c.reason, 2000)
    ensures Transition(r, c, now).Done? ==>
              Moved(Transition(r, c, now),
                    r.(fence := r.financialState == "RECONCILIATION_REQUIRED",
                       refund := Some(r.refund.value.(state := Declined, review :=
                         Some(Review(c.reason, c.scope.actor, now))))),
                    now)
  {
    hide ValidText;
  }

  /** A proof admits exactly this review, and says that the payment can bear it. */
  ghost predicate AdmittedReview(r: Order, c: Command) {
    && c.key != "" && c.id == r.id && c.fingerprint == OfCommand(Serialized(c))
    && r.quote.Some? && r.refund.Some? && r.receipt != "" && r.financialState != "RECONCILIATION_REQUIRED"
    && c.reviewProof.Some?
    && var p := c.reviewProof.value;
       && p.receiptId != "" && |p.receiptId| <= 128 && p.result == OfProof(p.(result := NoDigest))
       && p.receipt == r.receipt && p.remaining >= r.refund.value.amount
       && p.input == OfReview(ReviewAdmission(c.scope, c.key, c.kind, r.id, r.order, r.receipt, c.fingerprint, r.buyer,
                                              r.provider, r.version, r.refund.value.version, r.quote.value.version,
                                              r.refund.value.amount))
  }

  /** A refund is granted only when both parties agreed. */
  lemma GrantExactly(r: Order, c: Command, now: int)
    requires c.kind == RefundReview
    ensures Transition(r, c, now).Done? <==>
            && Negotiates(r, c) && c.scope.platform && ValidText(c.reason, 2000)
            && r.refund.value.buyerConfirmed && r.refund.value.providerConfirmed && AdmittedReview(r, c)
    ensures Transition(r, c, now).Done? ==>
              Asked(Transition(r, c, now),
                    r.(fence := true, financialState := "REFUND_PENDING",
                       refund := Some(r.refund.value.(state := Approved, review :=
                         Some(Review(c.reason, c.scope.actor, now))))),
                    c, RefundOrder, r.refund.value.amount, now)
  {
    assert RECONCILIATION_REQUIRED == "RECONCILIATION_REQUIRED";
    hide ValidText, RECONCILIATION_REQUIRED;
  }

  // ----- trading results -----

  /** A result that is about this order, not outdated, and does not contradict the receipt. */
  ghost predicate Relevant(r: Order, x: FinancialResult) {
    && r.order != NoOrder && x.order == r.order && (x.revision <= 0 || x.revision >= r.revision)
    && (x.paymentReceipt == "" || r.receipt == "" || r.receipt == x.paymentReceipt)
  }

  /** What a relevant result does to the request's state. */
  ghost function StateAfter(r: Order, x: FinancialResult): RequestState {
    var paid := if x.paymentReceipt != "" && r.state == OrderPending && x.state != "RECONCILIATION_REQUIRED"
                then PaidReady else r.state;
    if x.state == "CLOSED_UNPAID" && x.receiptId != "" && x.paymentReceipt == "" && r.receipt == "" &&
       paid in {OrderPending, CancelRequested} then Cancelled
    else if x.state == "REFUNDED" && (paid == CancelRequested || x.fullRefund) then Cancelled
    else paid
  }

  lemma ToldExactly(r: Order, x: FinancialResult)
    ensures var told := Tell(r, x);
            && told.financialState == x.state && told.reason == x.reason && told.fundsExpireAt == x.fundsExpireAt
            && told.receipt == (if x.paymentReceipt == "" then r.receipt else x.paymentReceipt)
            && told.refund == r.refund && (told.fence <==> r.fence || x.state == "RECONCILIATION_REQUIRED")
            && told.state == if x.paymentReceipt != "" && r.state == OrderPending &&
              x.state != "RECONCILIATION_REQUIRED"
                             then PaidReady else r.state
  {
    assert RECONCILIATION_REQUIRED == "RECONCILIATION_REQUIRED";
    hide RECONCILIATION_REQUIRED;
  }

  lemma ConcludedExactly(r: Order, x: FinancialResult)
    ensures var next := Conclude(r, x);
            && next == r.(state := next.state, refund := next.refund, fence := next.fence)
            && (next.fence <==> r.fence && x.state != "REFUNDED")
            && next.state == (if x.state == "CLOSED_UNPAID" && x.receiptId != "" && r.receipt == "" &&
                                 r.state in {OrderPending, CancelRequested} then Cancelled
                              else if x.state == "REFUNDED" && (r.state == CancelRequested || x.fullRefund)
                                then Cancelled
                              else r.state)
            && next.refund == RefundAfter(r, x)
  {
    TerminalStatesDiffer();
  }

  /** An approved refund is refunded by one result and fails by the other; nothing else touches a refund. */
  ghost function RefundAfter(r: Order, x: FinancialResult): Option<Refund> {
    if r.refund.None? || r.refund.value.state != Approved then r.refund
    else if x.state == "REFUNDED" then Some(r.refund.value.(state := Refunded))
    else if x.state == "CHANNEL_OPERATION_FAILED" then Some(r.refund.value.(state := RefundFailed))
    else r.refund
  }

  /** An irrelevant result changes at most the revision; a relevant one is taken. */
  lemma ResultExactly(r: Order, x: FinancialResult, now: int)
    ensures !Relevant(r, x) ==> ApplyResult(r, x, now).0 == r.(revision := ApplyResult(r, x, now).0.revision)
    ensures Relevant(r, x) ==> ApplyResult(r, x, now).1
    ensures Relevant(r, x) ==>
              var next := ApplyResult(r, x, now).0;
              && next.financialState == x.state && next.reason == x.reason && next.fundsExpireAt == x.fundsExpireAt
              && next.receipt == (if x.paymentReceipt == "" then r.receipt else x.paymentReceipt)
              && next.revision == (if x.revision > 0 then x.revision else r.revision)
              && next.quote == r.quote && next.delivery == r.delivery && next.acceptance == r.acceptance
              && next.order == r.order
  {
    var seen := if x.revision > 0 then r.(revision := x.revision) else r;
    ToldExactly(seen, x);
    ConcludedExactly(Tell(seen, x), x);
    ConcludedRest(seen, x);
    hide Tell, Conclude, Projection, RefundAfter;
  }

  /** Refunding, and only that, lifts the fence; reconciliation sets it. */
  lemma ResultOutcome(r: Order, x: FinancialResult, now: int)
    requires Relevant(r, x)
    ensures var next := ApplyResult(r, x, now).0;
            && next.state == StateAfter(r, x) && next.refund == RefundAfter(r, x)
            && (next.fence <==> x.state != "REFUNDED" && (r.fence || x.state == "RECONCILIATION_REQUIRED"))
  {
    var seen := if x.revision > 0 then r.(revision := x.revision) else r;
    ToldExactly(seen, x);
    ConcludedExactly(Tell(seen, x), x);
    TerminalStatesDiffer();
    hide Tell, Conclude, Projection;
  }

  lemma TerminalStatesDiffer()
    ensures "REFUNDED" != "RECONCILIATION_REQUIRED" && "CLOSED_UNPAID" != "RECONCILIATION_REQUIRED"
    ensures "REFUNDED" != "CLOSED_UNPAID" && "CHANNEL_OPERATION_FAILED" != "REFUNDED"
    ensures "CHANNEL_OPERATION_FAILED" != "CLOSED_UNPAID"
  {
  }

  /** The version rises exactly if a user could see a difference or the payment became known. */
  lemma ResultVersion(r: Order, x: FinancialResult, now: int)
    requires Relevant(r, x)
    ensures var next := ApplyResult(r, x, now).0;
            next.version == r.version <==>
            && next.state == r.state && next.refund == r.refund && next.fence == r.fence && next.receipt == r.receipt
            && next.financialState == r.financialState && next.reason == r.reason &&
              next.fundsExpireAt == r.fundsExpireAt
  {
    ResultExactly(r, x, now);
    hide Tell;
    hide Conclude;
    ConcludedRest(if x.revision > 0 then r.(revision := x.revision) else r, x);
  }

  lemma ConcludedRest(r: Order, x: FinancialResult)
    ensures var next := Conclude(Tell(r, x), x);
            next == r.(state := next.state, refund := next.refund, fence := next.fence, receipt := next.receipt,
                       financialState := next.financialState, reason := next.reason, fundsExpireAt :=
                         next.fundsExpireAt)
  {
    hide RECONCILIATION_REQUIRED;
  }
}
