/** The request as the source keeps it: an object whose two operations update it field by field. */
module ServiceRequest {
  import opened Optional
  import opened ServiceOrder
  import opened ServiceOrderLaws

  datatype Reply = Emitted(command: Option<FinancialCommand>) | Denied'(why: Denial) | Crashed

  class Request {
    const id: string
    const buyer: string
    const provider: string
    var state: RequestState
    var version: int
    var quote: Option<Quote>
    var delivery: Option<Delivery>
    var refund: Option<Refund>
    var order: OrderRef
    var receipt: string
    var acceptance: Option<CommandRef>
    var acceptedDelivery: int
    var fence: bool
    var financialState: string
    var revision: int
    var reason: string
    var fundsExpireAt: Option<int>
    var updatedAt: int

    /** A request as it is created. */
    constructor (id: string, buyer: string, provider: string, now: int)
      ensures Value() == Order(id, buyer, provider, Requested, 1, None, None, None, NoOrder, "", None, 0, false, "", 0,
              "", None, now)
    {
      this.id, this.buyer, this.provider := id, buyer, provider;
      state, version := Requested, 1;
      quote, delivery, refund := None, None, None;
      order, receipt, acceptance, acceptedDelivery := NoOrder, "", None, 0;
      fence, financialState, revision, reason, fundsExpireAt, updatedAt := false, "", 0, "", None, now;
    }

    function Value(): Order
      reads this
    {
      Order(id, buyer, provider, state, version, quote, delivery, refund, order, receipt, acceptance, acceptedDelivery,
            fence, financialState, revision, reason, fundsExpireAt, updatedAt)
    }

    /** `TransitionRequest`: refused commands leave the request alone, the others do what `Transition` says. */
    method TransitionRequest(c: Command, now: int) returns (reply: Reply)
      modifies this
      ensures match Transition(old(Value()), c, now)
              case Done(next, emitted) => reply == Emitted(emitted) && Value() == next
              case Refused(why) => reply == Denied'(why) && Value() == old(Value())
              case Panics => reply == Crashed && Value() == old(Value())
      // In short: without an emission nothing changed; with one, the command came from the party it is meant for, the
      // version is one higher and the payment is the same.
      ensures !reply.Emitted? ==> Value() == old(Value())
      ensures reply.Emitted? ==> MeantFor(old(Value()), c)
      ensures reply.Emitted? ==> version == old(version) + 1 && updatedAt == now
      ensures reply.Emitted? ==> receipt == old(receipt) && revision == old(revision)
    {
      ghost var before := Value();
      reply := Decide(c, now);
      TransitionAdvances(before, c, now);
      if Transition(before, c, now).Done? {
        OnlyTheRightParty(before, c, now);
      }
      hide MeantFor, Transition;
    }

    /** The decision, kind by kind. */
    method Decide(c: Command, now: int) returns (reply: Reply)
      modifies this
      ensures match Transition(old(Value()), c, now)
              case Done(next, emitted) => reply == Emitted(emitted) && Value() == next
              case Refused(why) => reply == Denied'(why) && Value() == old(Value())
              case Panics => reply == Crashed && Value() == old(Value())
    {
      hide Authorization, FulfillmentGate, QuoteStep, ConfirmStep, StartStep, DeliverStep, JudgeStep, RejectStep,
        AcceptStep, CancelStep, ProposeStep,
        ConfirmRefundStep, ReviewStep;
      if c.version != version {
        return Denied'(Conflict);
      }
      var denial := Authorization(Value(), c);
      if denial.None? {
        denial := FulfillmentGate(Value(), c);
      }
      if denial.Some? {
        return Denied'(denial.value);
      }
      match c.kind {
        case Quotes => reply := Requote(c, now);
        case ConfirmQuote => reply := Confirm(c, now);
        case Start => reply := StartWork(c, now);
        case Deliver => reply := DeliverWork(c, now);
        case Accept => reply := Judge(c, now);
        case Reject => reply := Judge(c, now);
        case Cancel => reply := CancelRequest(c, now);
        case RefundPropose => reply := ProposeRefund(c, now);
        case RefundConfirm => reply := ConfirmRefund(c, now);
        case RefundReview => reply := ReviewRefund(c, now);
        case RefundReviewReject => reply := ReviewRefund(c, now);
        case OtherKind => return Denied'(Invalid);
      }
      if reply.Emitted? {
        version, updatedAt := version + 1, now;
      }
    }

    /** What a step leaves behind before the version is raised. */
    ghost predicate Stepped(outcome: Outcome, before: Order, now: int, reply: Reply)
      reads this
    {
      match outcome
      case Done(next, emitted) =>
        && reply == Emitted(emitted)
        && next == Value().(version := before.version + 1, updatedAt := now)
        && version == before.version && updatedAt == before.updatedAt
      case Refused(why) => reply == Denied'(why) && Value() == before
      case Panics => reply == Crashed && Value() == before
    }

    method Requote(c: Command, now: int) returns (reply: Reply)
      modifies this
      ensures Stepped(QuoteStep(old(Value()), c, now), old(Value()), now, reply)
    {
      hide ValidText;
      if state != Requested && state != Quoted {
        return Denied'(Conflict);
      }
      if c.quote.None? || c.quote.value.amount <= 0 || !ValidText(c.quote.value.scope, 10000) ||
         !ValidText(c.quote.value.criteria, 5000) || c.quote.value.days < 1 {
        return Denied'(Invalid);
      }
      var q := c.quote.value.(commissionBps := 1000, basis := BASIS_V2, policy := POLICY_V2, version := 1);
      if quote.Some? {
        q := q.(version := quote.value.version + 1);
      }
      quote, state := Some(q), Quoted;
      return Emitted(None);
    }

    method Confirm(c: Command, now: int) returns (reply: Reply)
      modifies this
      ensures Stepped(ConfirmStep(old(Value()), c, now), old(Value()), now, reply)
    {
      if state != Quoted || quote.None? || c.quote.None? || c.quote.value.version != quote.value.version ||
         c.policyAccepted != quote.value.policy || quote.value.commissionBps != 1000 ||
           !ValidQuoteAllocation(quote.value) {
        return Denied'(Conflict);
      }
      order := OrderOf(id);
      state := OrderPending;
      financialState := "AWAITING_PAYMENT";
      return Emitted(Some(MakeCommand(Value(), c, CreatePurchase, quote.value.amount)));
    }

    method StartWork(c: Command, now: int) returns (reply: Reply)
      modifies this
      ensures Stepped(StartStep(old(Value()), c, now), old(Value()), now, reply)
    {
      if state != PaidReady || receipt == "" || fence {
        return Denied'(Conflict);
      }
      state := Servicing;
      return Emitted(None);
    }

    method ConfirmRefund(c: Command, now: int) returns (reply: Reply)
      modifies this
      ensures Stepped(ConfirmRefundStep(old(Value()), c, now), old(Value()), now, reply)
    {
      if refund.None? || refund.value.state != Negotiating || c.refundVersion != refund.value.version {
        return Denied'(Conflict);
      }
      if IsBuyer(Value(), c) {
        refund := Some(refund.value.(buyerConfirmed := true));
      } else {
        refund := Some(refund.value.(providerConfirmed := true));
      }
      return Emitted(None);
    }

    method DeliverWork(c: Command, now: int) returns (reply: Reply)
      modifies this
      ensures Stepped(DeliverStep(old(Value()), c, now), old(Value()), now, reply)
    {
      if state != Servicing || fence {
        return Denied'(Conflict);
      }
      if c.delivery.None? || !ValidText(c.delivery.value.content, 10000) || |c.delivery.value.files| > 10 {
        return Denied'(Invalid);
      }
      var d := c.delivery.value.(rejection := None, version := 1);
      if delivery.Some? {
        d := d.(version := delivery.value.version + 1);
      }
      delivery, state := Some(d.(submittedAt := now)), AwaitingAcceptance;
      return Emitted(None);
    }

    method Judge(c: Command, now: int) returns (reply: Reply)
      modifies this
      ensures Stepped(JudgeStep(old(Value()), c, now), old(Value()), now, reply)
    {
      hide RejectStep, AcceptStep;
      if state != AwaitingAcceptance || delivery.None? || c.deliveryVersion != delivery.value.version ||
        acceptance.Some? || fence {
        return Denied'(Conflict);
      }
      if c.kind.Reject? {
        reply := RejectDelivery(c, now);
      } else {
        reply := AcceptDelivery(c, now);
      }
    }

    method RejectDelivery(c: Command, now: int) returns (reply: Reply)
      requires delivery.Some?
      modifies this
      ensures Stepped(RejectStep(old(Value()), c, now), old(Value()), now, reply)
    {
      hide ValidText;
      if !ValidText(c.reason, 2000) {
        return Denied'(Invalid);
      }
      state := Servicing;
      var rejection := DeliveryRejection(delivery.value.version, c.reason, c.scope.actor, now);
      delivery := Some(delivery.value.(rejection := Some(rejection)));
      return Emitted(None);
    }

    method AcceptDelivery(c: Command, now: int) returns (reply: Reply)
      requires delivery.Some?
      modifies this
      ensures Stepped(AcceptStep(old(Value()), c, now), old(Value()), now, reply)
    {
      if quote.None? {
        return Crashed;
      }
      var settle := MakeCommand(Value(), c, Settle, quote.value.amount);
      acceptance := Some(settle.ref);
      acceptedDelivery := delivery.value.version;
      state := Accepted;
      financialState := "SETTLEMENT_PENDING";
      return Emitted(Some(settle));
    }

    method CancelRequest(c: Command, now: int) returns (reply: Reply)
      modifies this
      ensures Stepped(CancelStep(old(Value()), c, now), old(Value()), now, reply)
    {
      if state == Requested || state == Quoted {
        state := Cancelled;
        return Emitted(None);
      }
      if state != OrderPending && state != PaidReady {
        return Denied'(Conflict);
      }
      if fence {
        return Denied'(Conflict);
      }
      if quote.None? {
        return Crashed;
      }
      state := CancelRequested;
      fence := true;
      financialState := "CANCELLATION_PENDING";
      return Emitted(Some(MakeCommand(Value(), c, CancelOrder, quote.value.amount)));
    }

    method ProposeRefund(c: Command, now: int) returns (reply: Reply)
      modifies this
      ensures Stepped(ProposeStep(old(Value()), c, now), old(Value()), now, reply)
    {
      hide ValidText;
      if state != Servicing && state != AwaitingAcceptance && state != Accepted {
        return Denied'(Conflict);
      }
      if refund.Some? && refund.value.state == Approved {
        return Denied'(Conflict);
      }
      if quote.None? || c.refundAmount <= 0 || c.refundAmount > quote.value.amount || !ValidText(c.reason, 2000) {
        return Denied'(Invalid);
      }
      if c.refundable.None? {
        return Denied'(Unavailable);
      }
      if c.refundAmount > c.refundable.value {
        return Denied'(Invalid);
      }
      var next := 1;
      if refund.Some? {
        next := refund.value.version + 1;
      }
      refund := Some(Refund(next, c.refundAmount, c.reason, IsBuyer(Value(), c), IsProvider(Value(), c), Negotiating,
        None));
      fence := true;
      return Emitted(None);
    }

    method ReviewRefund(c: Command, now: int) returns (reply: Reply)
      modifies this
      ensures Stepped(ReviewStep(old(Value()), c, now), old(Value()), now, reply)
    {
      hide ValidText, ProvesReview, BuildReviewAdmission;
      if refund.None? || refund.value.state != Negotiating || c.refundVersion != refund.value.version ||
        !ValidText(c.reason, 2000) {
        return Denied'(Conflict);
      }
      var review := Review(c.reason, c.scope.actor, now);
      if c.kind.RefundReviewReject? {
        refund := Some(refund.value.(state := Declined, review := Some(review)));
        fence := financialState == RECONCILIATION_REQUIRED;
        return Emitted(None);
      }
      if !refund.value.buyerConfirmed || !refund.value.providerConfirmed {
        return Denied'(Conflict);
      }
      var admission := BuildReviewAdmission(c, Value());
      if admission.Denied? {
        return Denied'(admission.why);
      }
      if c.reviewProof.None? || !ProvesReview(c.reviewProof.value, admission.value) {
        return Denied'(Unavailable);
      }
      refund := Some(refund.value.(state := Approved, review := Some(review)));
      fence := true;
      financialState := "REFUND_PENDING";
      return Emitted(Some(MakeCommand(Value(), c, RefundOrder, refund.value.amount)));
    }

    method TakePayment(x: FinancialResult)
      modifies this
      ensures Value() == Paid(old(Value()), x)
    {
      hide RECONCILIATION_REQUIRED;
      if x.paymentReceipt != "" {
        receipt := x.paymentReceipt;
        if state == OrderPending && x.state != RECONCILIATION_REQUIRED {
          state := PaidReady;
        }
      }
    }

    method TakeResult(x: FinancialResult)
      modifies this
      ensures Value() == Tell(old(Value()), x)
    {
      hide RECONCILIATION_REQUIRED, Paid;
      TakePayment(x);
      financialState, reason := x.state, x.reason;
      if x.state == RECONCILIATION_REQUIRED {
        fence := true;
      }
      fundsExpireAt := x.fundsExpireAt;
    }

    method ConcludeResult(x: FinancialResult)
      modifies this
      ensures Value() == Conclude(old(Value()), x)
    {
      if x.state == "CLOSED_UNPAID" && x.receiptId != "" && receipt == "" &&
        (state == OrderPending || state == CancelRequested) {
        state := Cancelled;
      }
      if x.state == "REFUNDED" {
        if state == CancelRequested || x.fullRefund {
          state := Cancelled;
        }
        if refund.Some? && refund.value.state == Approved {
          refund := Some(refund.value.(state := Refunded));
        }
        fence := false;
      }
      if x.state == "CHANNEL_OPERATION_FAILED" && refund.Some? && refund.value.state == Approved {
        refund := Some(refund.value.(state := RefundFailed));
      }
    }

    /** `ApplyFinancialResult` */
    method ApplyFinancialResult(x: FinancialResult, now: int) returns (ok: bool)
      modifies this
      ensures (Value(), ok) == ApplyResult(old(Value()), x, now)
      // In short: the version never falls, a receipt stays, and a refused result changes at most the revision.
      ensures old(version) <= version <= old(version) + 1
      ensures old(receipt) != "" ==> receipt == old(receipt)
      ensures !ok ==> Value() == old(Value()).(revision := revision)
    {
      ResultBounds(Value(), x, now);
      hide Absorb;
      if order == NoOrder || x.order != order {
        return false;
      }
      if x.revision > 0 && x.revision < revision {
        return true;
      }
      var before := Value();
      if x.revision > 0 {
        revision := x.revision;
      }
      if x.paymentReceipt != "" && receipt != "" && receipt != x.paymentReceipt {
        return false;
      }
      AbsorbResult(before, x, now);
      return true;
    }

    method AbsorbResult(before: Order, x: FinancialResult, now: int)
      modifies this
      ensures Value() == Absorb(before, old(Value()), x, now)
    {
      hide Tell, Conclude;
      TakeResult(x);
      ConcludeResult(x);
      if Projection(Value()) != Projection(before) || receipt != before.receipt {
        version, updatedAt := version + 1, now;
      }
    }
  }
}
