/** A service request between buyer, provider and platform, and the financial commands it emits.

    Fingerprints are modelled as the values they are taken of. Identifiers derived by hashing are
    modelled as the facts they are derived from. */
module ServiceOrder {

  import opened Optional

  datatype RequestState =
    | Requested | Quoted | OrderPending | PaidReady | Servicing | AwaitingAcceptance | Accepted | CancelRequested |
      Cancelled

  datatype Kind =
    | Quotes | ConfirmQuote | Start | Deliver | Accept | Reject | Cancel
    | RefundPropose | RefundConfirm | RefundReview | RefundReviewReject | OtherKind

  datatype FinancialKind = CreatePurchase | Settle | CancelOrder | RefundOrder

  datatype RefundState = Negotiating | Approved | Declined | Refunded | RefundFailed

  datatype OrderRef = NoOrder | OrderOf(requestId: string) | ForeignOrder(text: string)

  datatype CommandRef = CommandRef(requestId: string, kind: FinancialKind, key: string)

  datatype Quote = Quote(commissionBps: int, basis: string, policy: string, amount: int, scope: string,
      criteria: string, days: int, version: int)

  datatype DeliveryRejection = DeliveryRejection(deliveryVersion: int, reason: string, actor: string, at: int)

  datatype Delivery = Delivery(version: int, content: string, files: seq<string>, submittedAt: int,
      rejection: Option<DeliveryRejection>)

  datatype Review = Review(reason: string, actor: string, at: int)

  datatype Refund = Refund(
    version: int, amount: int, reason: string, buyerConfirmed: bool, providerConfirmed: bool, state: RefundState,
    review: Option<Review>
  )

  datatype Scope = Scope(organization: string, actor: string, platform: bool)

  datatype Order = Order(
    id: string, buyer: string, provider: string, state: RequestState, version: int,
    quote: Option<Quote>, delivery: Option<Delivery>, refund: Option<Refund>,
    order: OrderRef, receipt: string, acceptance: Option<CommandRef>, acceptedDelivery: int,
    fence: bool, financialState: string, revision: int, reason: string, fundsExpireAt: Option<int>, updatedAt: int
  )

  datatype Command = Command(
    scope: Scope, key: string, kind: Kind, id: string, version: int, quote: Option<Quote>, delivery: Option<Delivery>,
    refundAmount: int, refundVersion: int, deliveryVersion: int, reason: string, policyAccepted: string,
    fingerprint: Digest, fulfillmentProof: Option<Proof>, reviewProof: Option<Proof>, refundable: Option<int>
  )

  datatype FulfillmentAdmission = FulfillmentAdmission(
    scope: Scope, key: string, kind: Kind, requestId: string, order: OrderRef, receipt: string, command: Digest,
    buyer: string, provider: string, requestVersion: int, quoteVersion: int
  )

  datatype ReviewAdmission = ReviewAdmission(
    scope: Scope, key: string, kind: Kind, requestId: string, order: OrderRef, receipt: string, command: Digest,
    buyer: string, provider: string, requestVersion: int, refundVersion: int, quoteVersion: int, amount: int
  )

  /** Both kinds of proof; `remaining` is used by refund reviews only. */
  datatype Proof = Proof(receiptId: string, input: Digest, receipt: string, remaining: int, result: Digest)

  datatype Digest =
    | NoDigest
    | OfCommand(command: Command)
    | OfFulfillment(fulfillment: FulfillmentAdmission)
    | OfReview(review: ReviewAdmission)
    | OfProof(proof: Proof)

  datatype FinancialCommand = FinancialCommand(
    ref: CommandRef, order: OrderRef, kind: FinancialKind, actor: string, buyer: string, provider: string,
    quote: Option<Quote>, amount: int
  )

  datatype FinancialResult = FinancialResult(
    order: OrderRef, paymentReceipt: string, receiptId: string, state: string, reason: string,
    fundsExpireAt: Option<int>, revision: int, fullRefund: bool
  )

  const POLICY_V1 := "ecoservices-v1-10-platform-fee-manual-expiry"
  const POLICY_V2 := "ecoservices-v2-channel-net-10-platform-fee-manual-expiry"
  const BASIS_V1 := "CUMULATIVE_NET_FLOOR_V1"
  const BASIS_V2 := "CHANNEL_SETTLEMENT_NET_FLOOR_V2"
  const RECONCILIATION_REQUIRED := "RECONCILIATION_REQUIRED"

  predicate ValidText(text: string, max: nat) {
    text != "" && text[0] !in " \t\r\n" && text[|text| - 1] !in " \t\r\n" && |text| <= max && '\0' !in text
  }

  predicate ValidId(id: string) {
    && |id| == 36
    && (forall i | 0 <= i < 36 ::
          if i in {8, 13, 18, 23} then id[i] == '-' else '0' <= id[i] <= '9' || 'a' <= id[i] <= 'f')
    && exists i | 0 <= i < 36 :: id[i] !in "-0"
  }

  predicate ValidQuoteAllocation(q: Quote) {
    (q.basis == BASIS_V2 && q.policy == POLICY_V2) || (q.basis == BASIS_V1 && q.policy == POLICY_V1)
  }

  // ----- proofs -----

  /** The fields that are not serialized do not enter the command's fingerprint. */
  function Serialized(c: Command): Command {
    c.(fingerprint := NoDigest, fulfillmentProof := None, reviewProof := None, refundable := None)
  }

  predicate IsFulfillment(kind: Kind) {
    kind.Start? || kind.Deliver? || kind.Accept? || kind.Reject?
  }

  datatype Denial = Invalid | Conflict | Forbidden | Unavailable

  datatype Admission<T> = Admitted(value: T) | Denied(why: Denial)

  function BuildFulfillmentAdmission(c: Command, r: Order): Admission<FulfillmentAdmission> {
    if c.scope.platform || !IsFulfillment(c.kind) then Denied(Forbidden)
    else if c.scope.organization != (if c.kind.Accept? || c.kind.Reject? then r.buyer else r.provider)
      then Denied(Forbidden)
    else if !ValidId(c.key) || c.id != r.id || c.version != r.version || c.fingerprint != OfCommand(Serialized(c)) ||
            r.quote.None? || r.receipt == "" || r.fence || r.financialState == RECONCILIATION_REQUIRED
              then Denied(Conflict)
    else Admitted(FulfillmentAdmission(c.scope, c.key, c.kind, r.id, r.order, r.receipt, c.fingerprint, r.buyer,
      r.provider,
                                       r.version, r.quote.value.version))
  }

  function BuildReviewAdmission(c: Command, r: Order): Admission<ReviewAdmission> {
    if !c.scope.platform || !c.kind.RefundReview? then Denied(Forbidden)
    else if c.key == "" || c.id != r.id || c.version != r.version || c.fingerprint != OfCommand(Serialized(c)) ||
            r.quote.None? || r.refund.None? || r.receipt == "" || !r.refund.value.state.Negotiating? ||
            !r.refund.value.buyerConfirmed || !r.refund.value.providerConfirmed ||
              c.refundVersion != r.refund.value.version ||
            r.financialState == RECONCILIATION_REQUIRED then Denied(Conflict)
    else Admitted(ReviewAdmission(c.scope, c.key, c.kind, r.id, r.order, r.receipt, c.fingerprint, r.buyer, r.provider,
                                  r.version, r.refund.value.version, r.quote.value.version, r.refund.value.amount))
  }

  predicate SelfConsistent(p: Proof) {
    p.receiptId != "" && |p.receiptId| <= 128 && p.result == OfProof(p.(result := NoDigest))
  }

  predicate ProvesFulfillment(p: Proof, a: FulfillmentAdmission) {
    SelfConsistent(p) && p.input == OfFulfillment(a) && p.receipt == a.receipt
  }

  predicate ProvesReview(p: Proof, a: ReviewAdmission) {
    SelfConsistent(p) && p.input == OfReview(a) && p.receipt == a.receipt && p.remaining >= a.amount
  }

  // ----- commands -----

  /** `Panics` is a nil dereference in the source. */
  datatype Outcome = Done(next: Order, emitted: Option<FinancialCommand>) | Refused(why: Denial) | Panics

  predicate IsBuyer(r: Order, c: Command) {
    !c.scope.platform && c.scope.organization == r.buyer
  }

  predicate IsProvider(r: Order, c: Command) {
    !c.scope.platform && c.scope.organization == r.provider
  }

  function Authorization(r: Order, c: Command): Option<Denial> {
    match c.kind
    case Quotes => if IsProvider(r, c) then None else Some(Forbidden)
    case Start => if IsProvider(r, c) then None else Some(Forbidden)
    case Deliver => if IsProvider(r, c) then None else Some(Forbidden)
    case ConfirmQuote => if IsBuyer(r, c) then None else Some(Forbidden)
    case Accept => if IsBuyer(r, c) then None else Some(Forbidden)
    case Reject => if IsBuyer(r, c) then None else Some(Forbidden)
    case Cancel => if IsBuyer(r, c) then None else Some(Forbidden)
    case RefundPropose => if IsBuyer(r, c) || IsProvider(r, c) then None else Some(Forbidden)
    case RefundConfirm => if IsBuyer(r, c) || IsProvider(r, c) then None else Some(Forbidden)
    case RefundReview => if c.scope.platform then None else Some(Forbidden)
    case RefundReviewReject => if c.scope.platform then None else Some(Forbidden)
    case OtherKind => Some(Invalid)
  }

  /** The fulfillment commands need a proof of admission bound to this very command and request version. */
  function FulfillmentGate(r: Order, c: Command): Option<Denial> {
    if !IsFulfillment(c.kind) then None
    else match BuildFulfillmentAdmission(c, r)
      case Denied(why) => Some(why)
      case Admitted(a) => if c.fulfillmentProof.None? || !ProvesFulfillment(c.fulfillmentProof.value, a)
        then Some(Conflict) else None
  }

  function MakeCommand(r: Order, c: Command, kind: FinancialKind, amount: int): FinancialCommand {
    FinancialCommand(CommandRef(r.id, kind, c.key), r.order, kind, c.scope.actor, r.buyer, r.provider, r.quote, amount)
  }

  function Advance(r: Order, now: int, emitted: Option<FinancialCommand>): Outcome {
    Done(r.(version := r.version + 1, updatedAt := now), emitted)
  }

  function QuoteStep(r: Order, c: Command, now: int): Outcome {
    if !r.state.Requested? && !r.state.Quoted? then Refused(Conflict)
    else if c.quote.None? || c.quote.value.amount <= 0 || !ValidText(c.quote.value.scope, 10000) ||
            !ValidText(c.quote.value.criteria, 5000) || c.quote.value.days < 1 then Refused(Invalid)
    else
      var q := c.quote.value.(commissionBps := 1000, basis := BASIS_V2, policy := POLICY_V2,
                              version := if r.quote.Some? then r.quote.value.version + 1 else 1);
      Advance(r.(quote := Some(q), state := Quoted), now, None)
  }

  function ConfirmStep(r: Order, c: Command, now: int): Outcome {
    if !r.state.Quoted? || r.quote.None? || c.quote.None? || c.quote.value.version != r.quote.value.version ||
       c.policyAccepted != r.quote.value.policy || r.quote.value.commissionBps != 1000 ||
         !ValidQuoteAllocation(r.quote.value)
    then Refused(Conflict)
    else
      var next := r.(order := OrderOf(r.id), state := OrderPending, financialState := "AWAITING_PAYMENT");
      Advance(next, now, Some(MakeCommand(next, c, CreatePurchase, r.quote.value.amount)))
  }

  function StartStep(r: Order, c: Command, now: int): Outcome {
    if !r.state.PaidReady? || r.receipt == "" || r.fence then Refused(Conflict)
    else Advance(r.(state := Servicing), now, None)
  }

  function DeliverStep(r: Order, c: Command, now: int): Outcome {
    if !r.state.Servicing? || r.fence then Refused(Conflict)
    else if c.delivery.None? || !ValidText(c.delivery.value.content, 10000) || |c.delivery.value.files| > 10
      then Refused(Invalid)
    else
      var d := c.delivery.value.(rejection := None, submittedAt := now,
                                 version := if r.delivery.Some? then r.delivery.value.version + 1 else 1);
      Advance(r.(delivery := Some(d), state := AwaitingAcceptance), now, None)
  }

  function RejectStep(r: Order, c: Command, now: int): Outcome
    requires r.delivery.Some?
  {
    if !ValidText(c.reason, 2000) then Refused(Invalid)
    else
      var rejection := DeliveryRejection(r.delivery.value.version, c.reason, c.scope.actor, now);
      Advance(r.(state := Servicing, delivery := Some(r.delivery.value.(rejection := Some(rejection)))), now, None)
  }

  function AcceptStep(r: Order, c: Command, now: int): Outcome
    requires r.delivery.Some?
  {
    if r.quote.None? then Panics
    else
      var settle := MakeCommand(r, c, Settle, r.quote.value.amount);
      Advance(r.(acceptance := Some(settle.ref), acceptedDelivery := r.delivery.value.version, state := Accepted,
                 financialState := "SETTLEMENT_PENDING"), now, Some(settle))
  }

  function JudgeStep(r: Order, c: Command, now: int): Outcome {
    if !r.state.AwaitingAcceptance? || r.delivery.None? || c.deliveryVersion != r.delivery.value.version ||
      r.acceptance.Some? || r.fence
    then Refused(Conflict)
    else if c.kind.Reject? then RejectStep(r, c, now)
    else AcceptStep(r, c, now)
  }

  function CancelStep(r: Order, c: Command, now: int): Outcome {
    if r.state.Requested? || r.state.Quoted? then Advance(r.(state := Cancelled), now, None)
    else if r.state.OrderPending? || r.state.PaidReady? then
      if r.fence then Refused(Conflict)
      else if r.quote.None? then Panics
      else
        var next := r.(state := CancelRequested, fence := true, financialState := "CANCELLATION_PENDING");
        Advance(next, now, Some(MakeCommand(next, c, CancelOrder, r.quote.value.amount)))
    else Refused(Conflict)
  }

  function ProposeStep(r: Order, c: Command, now: int): Outcome {
    if !r.state.Servicing? && !r.state.AwaitingAcceptance? && !r.state.Accepted? then Refused(Conflict)
    else if r.refund.Some? && r.refund.value.state.Approved? then Refused(Conflict)
    else if r.quote.None? || c.refundAmount <= 0 || c.refundAmount > r.quote.value.amount || !ValidText(c.reason, 2000)
      then Refused(Invalid)
    else if c.refundable.None? then Refused(Unavailable)
    else if c.refundAmount > c.refundable.value then Refused(Invalid)
    else
      var version := if r.refund.Some? then r.refund.value.version + 1 else 1;
      var refund := Refund(version, c.refundAmount, c.reason, IsBuyer(r, c), IsProvider(r, c), Negotiating, None);
      Advance(r.(refund := Some(refund), fence := true), now, None)
  }

  function ConfirmRefundStep(r: Order, c: Command, now: int): Outcome {
    if r.refund.None? || !r.refund.value.state.Negotiating? || c.refundVersion != r.refund.value.version
      then Refused(Conflict)
    else
      var refund := if IsBuyer(r, c) then r.refund.value.(buyerConfirmed := true)
        else r.refund.value.(providerConfirmed := true);
      Advance(r.(refund := Some(refund)), now, None)
  }

  function ReviewStep(r: Order, c: Command, now: int): Outcome {
    if r.refund.None? || !r.refund.value.state.Negotiating? || c.refundVersion != r.refund.value.version ||
      !ValidText(c.reason, 2000)
    then Refused(Conflict)
    else
      var review := Review(c.reason, c.scope.actor, now);
      if c.kind.RefundReviewReject? then
        // Closing this dispute does not lift an independent money hold.
        Advance(r.(refund := Some(r.refund.value.(state := Declined, review := Some(review))),
                   fence := r.financialState == RECONCILIATION_REQUIRED), now, None)
      else if !r.refund.value.buyerConfirmed || !r.refund.value.providerConfirmed then Refused(Conflict)
      else match BuildReviewAdmission(c, r)
        case Denied(why) => Refused(why)
        case Admitted(a) =>
          if c.reviewProof.None? || !ProvesReview(c.reviewProof.value, a) then Refused(Unavailable)
          else
            var next := r.(refund := Some(r.refund.value.(state := Approved, review := Some(review))), fence := true,
                           financialState := "REFUND_PENDING");
            Advance(next, now, Some(MakeCommand(next, c, RefundOrder, r.refund.value.amount)))
  }

  /** `TransitionRequest` on a request that exists. */
  function Transition(r: Order, c: Command, now: int): Outcome {
    if c.version != r.version then Refused(Conflict)
    else if Authorization(r, c).Some? then Refused(Authorization(r, c).value)
    else if FulfillmentGate(r, c).Some? then Refused(FulfillmentGate(r, c).value)
    else match c.kind
      case Quotes => QuoteStep(r, c, now)
      case ConfirmQuote => ConfirmStep(r, c, now)
      case Start => StartStep(r, c, now)
      case Deliver => DeliverStep(r, c, now)
      case Accept => JudgeStep(r, c, now)
      case Reject => JudgeStep(r, c, now)
      case Cancel => CancelStep(r, c, now)
      case RefundPropose => ProposeStep(r, c, now)
      case RefundConfirm => ConfirmRefundStep(r, c, now)
      case RefundReview => ReviewStep(r, c, now)
      case RefundReviewReject => ReviewStep(r, c, now)
      case OtherKind => Refused(Invalid)
  }

  /** What every successful command has in common. */
  ghost predicate Advanced(r: Order, outcome: Outcome, now: int) {
    outcome.Done? ==>
      && outcome.next.version == r.version + 1 && outcome.next.updatedAt == now && outcome.next.receipt == r.receipt
      && outcome.next.id == r.id && outcome.next.buyer == r.buyer && outcome.next.provider == r.provider
      && outcome.next.revision == r.revision && outcome.next.fundsExpireAt == r.fundsExpireAt
  }

  lemma OrderingAdvances(r: Order, c: Command, now: int)
    ensures Advanced(r, QuoteStep(r, c, now), now)
    ensures Advanced(r, ConfirmStep(r, c, now), now)
    ensures Advanced(r, CancelStep(r, c, now), now)
  {
    hide ValidText, ValidQuoteAllocation;
  }

  lemma WorkAdvances(r: Order, c: Command, now: int)
    ensures Advanced(r, StartStep(r, c, now), now)
    ensures Advanced(r, DeliverStep(r, c, now), now)
    ensures Advanced(r, JudgeStep(r, c, now), now)
  {
    hide ValidText;
  }

  lemma RefundAdvances(r: Order, c: Command, now: int)
    ensures Advanced(r, ProposeStep(r, c, now), now)
    ensures Advanced(r, ConfirmRefundStep(r, c, now), now)
    ensures Advanced(r, ReviewStep(r, c, now), now)
  {
    hide ValidText, ProvesReview, BuildReviewAdmission;
  }

  lemma TransitionAdvances(r: Order, c: Command, now: int)
    ensures Advanced(r, Transition(r, c, now), now)
  {
    hide Authorization, FulfillmentGate, QuoteStep, ConfirmStep, CancelStep, StartStep, DeliverStep, JudgeStep,
      ProposeStep, ConfirmRefundStep, ReviewStep;
    OrderingAdvances(r, c, now);
    WorkAdvances(r, c, now);
    RefundAdvances(r, c, now);
  }

  // ----- trading results -----

  /** What a user can see: the fields that are serialized. */
  function Projection(r: Order): Order {
    r.(buyer := "", provider := "", receipt := "", revision := 0)
  }

  /** A payment receipt makes a pending order ready, unless the money is in doubt. */
  function Paid(r: Order, x: FinancialResult): Order {
    if x.paymentReceipt == "" then r
    else r.(receipt := x.paymentReceipt,
            state := if r.state.OrderPending? && x.state != RECONCILIATION_REQUIRED then PaidReady else r.state)
  }

  /** The payment receipt and the financial state of a result. */
  function Tell(r: Order, x: FinancialResult): Order {
    var paid := Paid(r, x);
    paid.(financialState := x.state, reason := x.reason, fundsExpireAt := x.fundsExpireAt,
          fence := paid.fence || x.state == RECONCILIATION_REQUIRED)
  }

  /** The consequences of the terminal financial states. */
  function Conclude(r: Order, x: FinancialResult): Order {
    if x.state == "CLOSED_UNPAID" then
      if x.receiptId != "" && r.receipt == "" && (r.state.OrderPending? || r.state.CancelRequested?)
        then r.(state := Cancelled) else r
    else if x.state == "REFUNDED" then
      r.(state := if r.state.CancelRequested? || x.fullRefund then Cancelled else r.state,
         refund := if r.refund.Some? && r.refund.value.state.Approved? then Some(r.refund.value.(state := Refunded))
           else r.refund,
         fence := false)
    else if x.state == "CHANNEL_OPERATION_FAILED" then
      if r.refund.Some? && r.refund.value.state.Approved?
        then r.(refund := Some(r.refund.value.(state := RefundFailed))) else r
    else r
  }

  /** `ApplyFinancialResult`: the order afterwards, and whether the result was taken without error. A
      conflicting receipt is noticed after the revision has been written. */
  function ApplyResult(r: Order, x: FinancialResult, now: int): (Order, bool) {
    if r.order == NoOrder || x.order != r.order then (r, false)
    else if x.revision > 0 && x.revision < r.revision then (r, true)
    else
      var seen := if x.revision > 0 then r.(revision := x.revision) else r;
      if x.paymentReceipt != "" && seen.receipt != "" && seen.receipt != x.paymentReceipt then (seen, false)
      else (Absorb(r, seen, x, now), true)
  }

  /** The consequences of a result that is taken; the version tells users whether there were any. */
  function Absorb(before: Order, seen: Order, x: FinancialResult, now: int): Order {
    var next := Conclude(Tell(seen, x), x);
    if Projection(next) == Projection(before) && next.receipt == before.receipt then next
    else next.(version := next.version + 1, updatedAt := now)
  }

  /** A result never lowers the version and never changes a receipt; one that is refused writes at most the
      revision. */
  lemma ResultBounds(r: Order, x: FinancialResult, now: int)
    ensures ApplyResult(r, x, now).0.version in {r.version, r.version + 1}
    ensures r.receipt != "" ==> ApplyResult(r, x, now).0.receipt == r.receipt
    ensures !ApplyResult(r, x, now).1 ==> ApplyResult(r, x, now).0 == r.(revision := ApplyResult(r, x, now).0.revision)
    ensures ApplyResult(r, x, now).0.revision >= r.revision || x.revision <= 0
  {
    hide Conclude, Tell;
    var seen := if x.revision > 0 then r.(revision := x.revision) else r;
    ToldAndConcluded(seen, x);
  }

  lemma ToldAndConcluded(r: Order, x: FinancialResult)
    ensures var next := Conclude(Tell(r, x), x);
            && next.version == r.version && next.revision == r.revision
            && next.receipt == if x.paymentReceipt == "" then r.receipt else x.paymentReceipt
  {
  }
}
