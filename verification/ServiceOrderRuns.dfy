/** Whole lives of a service order: any commands from anyone, interleaved with any trading results. */
module ServiceOrderRuns {
  import opened Optional
  import opened ServiceOrder

  datatype Event = Told(command: Command, at: int) | Traded(result: FinancialResult, at: int)

  function Step(r: Order, e: Event): Order {
    match e
    case Told(c, at) => (match Transition(r, c, at) case Done(next, _) => next case _ => r)
    case Traded(x, at) => ApplyResult(r, x, at).0
  }

  function Emits(r: Order, e: Event): seq<FinancialCommand> {
    match e
    case Told(c, at) =>
      (match Transition(r, c, at)
       case Done(_, emitted) => (match emitted case Some(command) => [command] case None => [])
       case _ => [])
    case Traded(_, _) => []
  }

  function After(r: Order, events: seq<Event>): Order
    decreases |events|
  {
    if events == [] then r else After(Step(r, events[0]), events[1..])
  }

  /** All financial commands of a life, in order. */
  function Emitted(r: Order, events: seq<Event>): seq<FinancialCommand>
    decreases |events|
  {
    if events == [] then [] else Emits(r, events[0]) + Emitted(Step(r, events[0]), events[1..])
  }

  function Fresh(id: string, buyer: string, provider: string, now: int): Order {
    Order(id, buyer, provider, Requested, 1, None, None, None, NoOrder, "", None, 0, false, "", 0, "", None, now)
  }

  function Count(log: seq<FinancialCommand>, kind: FinancialKind): nat {
    if log == [] then 0 else Count(log[..|log| - 1], kind) + (if log[|log| - 1].kind == kind then 1 else 0)
  }

  lemma CountAppend(log: seq<FinancialCommand>, command: FinancialCommand, kind: FinancialKind)
    ensures Count(log + [command], kind) == Count(log, kind) + (if command.kind == kind then 1 else 0)
  {
    assert (log + [command])[..|log|] == log;
  }

  // ----- the invariant -----

  predicate Unordered(r: Order) {
    r.state.Requested? || r.state.Quoted? || (r.state.Cancelled? && r.order == NoOrder)
  }

  predicate NeedsReceipt(state: RequestState) {
    state.PaidReady? || state.Servicing? || state.AwaitingAcceptance? || state.Accepted?
  }

  /** What holds of every reachable order. */
  ghost predicate Sound(r: Order) {
    && (Unordered(r) ==>
      r.order == NoOrder && r.financialState == "" && !r.fence && r.receipt == "" && r.refund.None? &&
      r.acceptance.None?)
    && (!Unordered(r) ==> r.order == OrderOf(r.id) && r.quote.Some?)
    && (r.financialState == RECONCILIATION_REQUIRED ==> r.fence)
    && (NeedsReceipt(r.state) ==> r.receipt != "")
    && (r.state.Accepted? ==> r.acceptance.Some?)
    && (r.acceptance.Some? ==> r.state.Accepted? || r.state.Cancelled?)
    && (r.refund.Some? ==> r.quote.Some? && 0 < r.refund.value.amount <= r.quote.value.amount)
  }

  /** One emitted command agrees with the order it belongs to. */
  ghost predicate Agrees(r: Order, command: FinancialCommand) {
    && command.order == OrderOf(r.id) && command.quote == r.quote && r.quote.Some?
    && (if command.kind.RefundOrder? then 0 < command.amount <= r.quote.value.amount
      else command.amount == r.quote.value.amount)
  }

  /** How the log and the order determine each other. */
  ghost predicate Accounted(r: Order, log: seq<FinancialCommand>) {
    && (Unordered(r) ==> log == [])
    && Count(log, CreatePurchase) == (if Unordered(r) then 0 else 1)
    && Count(log, Settle) == (if r.acceptance.Some? then 1 else 0)
    && Count(log, CancelOrder) <= 1
    && (Count(log, CancelOrder) == 1 ==> (r.state.CancelRequested? || r.state.Cancelled?) && r.acceptance.None?)
    && (forall i | 0 <= i < |log| :: Agrees(r, log[i]))
  }

  // ----- one event -----

  predicate Cancelling(state: RequestState) {
    state.CancelRequested? || state.Cancelled?
  }

  /** What an emitted command tells about the step that emitted it. */
  ghost predicate Explains(r: Order, next: Order, command: FinancialCommand) {
    && !Unordered(next) && Agrees(next, command)
    && match command.kind
       case CreatePurchase => Unordered(r) && next.acceptance.None?
       case Settle => !Unordered(r) && r.acceptance.None? && next.acceptance.Some? && !Cancelling(r.state) &&
         next.quote == r.quote
       case CancelOrder =>
         && !Unordered(r) && !Cancelling(r.state) && next.state.CancelRequested?
         && next.acceptance.None? && r.acceptance.None? && next.quote == r.quote
       case RefundOrder =>
         !Unordered(r) && next.state == r.state && next.acceptance == r.acceptance && next.quote == r.quote
  }

  /** A step without a command neither opens, settles nor cancels an order. */
  ghost predicate Silent(r: Order, next: Order) {
    && Unordered(next) == Unordered(r) && next.acceptance == r.acceptance
    && (!Unordered(r) ==> next.quote == r.quote)
    && (Cancelling(r.state) ==> Cancelling(next.state))
  }

  ghost predicate Moves(r: Order, next: Order, emitted: Option<FinancialCommand>) {
    && Sound(next) && next.id == r.id
    && (match emitted case None => Silent(r, next) case Some(command) => Explains(r, next, command))
  }

  ghost predicate Keeps(r: Order, outcome: Outcome) {
    match outcome
    case Done(next, emitted) => Moves(r, next, emitted) && next.version == r.version + 1 && next.receipt == r.receipt
    case Refused(_) => true
    case Panics => false
  }

  lemma QuoteKeeps(r: Order, c: Command, now: int)
    requires Sound(r)
    ensures Keeps(r, QuoteStep(r, c, now))
  {
    hide ValidText;
  }

  lemma ConfirmKeeps(r: Order, c: Command, now: int)
    requires Sound(r)
    ensures Keeps(r, ConfirmStep(r, c, now))
  {
    hide ValidQuoteAllocation;
  }

  lemma WorkKeeps(r: Order, c: Command, now: int)
    requires Sound(r)
    ensures Keeps(r, StartStep(r, c, now)) && Keeps(r, DeliverStep(r, c, now))
  {
    hide ValidText;
  }

  lemma JudgeKeeps(r: Order, c: Command, now: int)
    requires Sound(r)
    ensures Keeps(r, JudgeStep(r, c, now))
  {
    hide ValidText;
  }

  lemma CancelKeeps(r: Order, c: Command, now: int)
    requires Sound(r)
    ensures Keeps(r, CancelStep(r, c, now))
  {
  }

  lemma ProposeKeeps(r: Order, c: Command, now: int)
    requires Sound(r)
    ensures Keeps(r, ProposeStep(r, c, now)) && Keeps(r, ConfirmRefundStep(r, c, now))
  {
    hide ValidText;
  }

  lemma ReviewKeeps(r: Order, c: Command, now: int)
    requires Sound(r)
    ensures Keeps(r, ReviewStep(r, c, now))
  {
    hide ValidText, ProvesReview, BuildReviewAdmission;
  }

  /** A command never panics; a successful one raises the version by exactly one and keeps the receipt. */
  lemma TransitionKeeps(r: Order, c: Command, now: int)
    requires Sound(r)
    ensures Keeps(r, Transition(r, c, now))
    ensures Transition(r, c, now).Done? ==> c.version == r.version
  {
    hide Keeps, Sound, Authorization, FulfillmentGate, QuoteStep, ConfirmStep, StartStep, DeliverStep, JudgeStep,
      CancelStep,
      ProposeStep, ConfirmRefundStep, ReviewStep;
    QuoteKeeps(r, c, now);
    ConfirmKeeps(r, c, now);
    WorkKeeps(r, c, now);
    JudgeKeeps(r, c, now);
    CancelKeeps(r, c, now);
    ProposeKeeps(r, c, now);
    ReviewKeeps(r, c, now);
    RefusedKeeps(r, Conflict);
    RefusedKeeps(r, Invalid);
    if c.version == r.version && Authorization(r, c).Some? {
      RefusedKeeps(r, Authorization(r, c).value);
    } else if FulfillmentGate(r, c).Some? {
      RefusedKeeps(r, FulfillmentGate(r, c).value);
    }
  }

  lemma RefusedKeeps(r: Order, why: Denial)
    ensures Keeps(r, Refused(why))
  {
  }

  lemma TellKeeps(r: Order, x: FinancialResult)
    requires Sound(r) && r.order != NoOrder
    requires x.paymentReceipt != "" && r.receipt != "" ==> r.receipt == x.paymentReceipt
    ensures Moves(r, Tell(r, x), None)
    ensures r.receipt != "" ==> Tell(r, x).receipt == r.receipt
  {
  }

  lemma ConcludeKeeps(r: Order, x: FinancialResult)
    requires Sound(r) && r.order != NoOrder && r.financialState == x.state
    ensures Moves(r, Conclude(r, x), None)
    ensures Conclude(r, x).receipt == r.receipt
  {
    assert "REFUNDED" != RECONCILIATION_REQUIRED;
    hide RECONCILIATION_REQUIRED;
  }

  /** A trading result emits nothing, never lowers the version, and never changes a receipt. */
  lemma ResultKeeps(r: Order, x: FinancialResult, now: int)
    requires Sound(r)
    ensures Moves(r, ApplyResult(r, x, now).0, None)
    ensures ApplyResult(r, x, now).0.version >= r.version
    ensures r.receipt != "" ==> ApplyResult(r, x, now).0.receipt == r.receipt
  {
    hide Absorb, Moves, Sound;
    if r.order != NoOrder && x.order == r.order {
      var seen := if x.revision > 0 then r.(revision := x.revision) else r;
      RevisionKeeps(r, seen.revision);
      if !(x.paymentReceipt != "" && seen.receipt != "" && seen.receipt != x.paymentReceipt) {
        AbsorbKeeps(r, seen, x, now);
      }
    } else {
      SilentSelf(r);
    }
  }

  lemma RevisionKeeps(r: Order, revision: int)
    requires Sound(r)
    ensures Sound(r.(revision := revision)) && Moves(r, r.(revision := revision), None) && Moves(r, r, None)
  {
  }

  lemma AbsorbKeeps(r: Order, seen: Order, x: FinancialResult, now: int)
    requires Sound(seen) && seen.order != NoOrder && seen == r.(revision := seen.revision)
    requires x.paymentReceipt != "" && seen.receipt != "" ==> seen.receipt == x.paymentReceipt
    ensures Moves(r, Absorb(r, seen, x, now), None) && Absorb(r, seen, x, now).version >= r.version
    ensures r.receipt != "" ==> Absorb(r, seen, x, now).receipt == r.receipt
  {
    hide Tell, Conclude;
    TellKeeps(seen, x);
    TellVersion(seen, x);
    ConcludeKeeps(Tell(seen, x), x);
  }

  lemma TellVersion(r: Order, x: FinancialResult)
    ensures Tell(r, x).version == r.version && Tell(r, x).order == r.order && Tell(r, x).financialState == x.state
    ensures Conclude(Tell(r, x), x).version == r.version
  {
  }

  // ----- whole lives -----

  lemma StepKeeps(r: Order, e: Event)
    requires Sound(r)
    ensures Sound(Step(r, e)) && Step(r, e).id == r.id && Step(r, e).version >= r.version
    ensures r.receipt != "" ==> Step(r, e).receipt == r.receipt
    ensures |Emits(r, e)| <= 1
    ensures Moves(r, Step(r, e), if Emits(r, e) == [] then None else Some(Emits(r, e)[0]))
  {
    hide Transition, ApplyResult, Sound;
    match e
    case Told(c, at) =>
      TransitionKeeps(r, c, at);
      SilentSelf(r);
    case Traded(x, at) => ResultKeeps(r, x, at);
  }

  lemma SilentSelf(r: Order)
    requires Sound(r)
    ensures Moves(r, r, None)
  {
  }

  lemma AccountedStep(r: Order, log: seq<FinancialCommand>, next: Order, emitted: Option<FinancialCommand>)
    requires Sound(r) && Accounted(r, log) && Moves(r, next, emitted)
    ensures Accounted(next, if emitted.None? then log else log + [emitted.value])
  {
    if emitted.Some? {
      CountAppend(log, emitted.value, CreatePurchase);
      CountAppend(log, emitted.value, Settle);
      CountAppend(log, emitted.value, CancelOrder);
    }
    forall i | 0 <= i < |log|
      ensures Agrees(next, log[i])
    {
      assert Agrees(r, log[i]);
    }
  }

  lemma {:induction false} LifeKeeps(r: Order, log: seq<FinancialCommand>, events: seq<Event>)
    requires Sound(r) && Accounted(r, log)
    ensures Sound(After(r, events)) && Accounted(After(r, events), log + Emitted(r, events))
    ensures After(r, events).version >= r.version && After(r, events).id == r.id
    ensures r.receipt != "" ==> After(r, events).receipt == r.receipt
    decreases |events|
  {
    hide Sound, Accounted, Step, Emits;
    if events == [] {
      assert log + [] == log;
    } else {
      var e := events[0];
      StepKeeps(r, e);
      var emitted := if Emits(r, e) == [] then None else Some(Emits(r, e)[0]);
      AccountedStep(r, log, Step(r, e), emitted);
      var longer := log + Emits(r, e);
      assert longer == if emitted.None? then log else log + [emitted.value];
      LifeKeeps(Step(r, e), longer, events[1..]);
      assert longer + Emitted(Step(r, e), events[1..]) == log + Emitted(r, events);
    }
  }

  lemma FreshIsSound(id: string, buyer: string, provider: string, now: int)
    ensures Sound(Fresh(id, buyer, provider, now)) && Accounted(Fresh(id, buyer, provider, now), [])
  {
    assert RECONCILIATION_REQUIRED != "";
  }

  /** Over every life: at most one purchase, one settlement and one cancellation, never a settlement and a
      cancellation, and each of them for the amount of the confirmed quote; refunds never exceed it. */
  lemma EmittedOnce(id: string, buyer: string, provider: string, now: int, events: seq<Event>)
    ensures var r := Fresh(id, buyer, provider, now);
            var log := Emitted(r, events);
            && Count(log, CreatePurchase) <= 1 && Count(log, Settle) <= 1 && Count(log, CancelOrder) <= 1
            && (Count(log, Settle) == 0 || Count(log, CancelOrder) == 0)
            && (forall i | 0 <= i < |log| :: Agrees(After(r, events), log[i]))
  {
    var r := Fresh(id, buyer, provider, now);
    FreshIsSound(id, buyer, provider, now);
    LifeKeeps(r, [], events);
    assert [] + Emitted(r, events) == Emitted(r, events);
  }

  /** In every reachable order the reconciliation state implies the fence, and payment is proved. */
  lemma ReachableIsFenced(id: string, buyer: string, provider: string, now: int, events: seq<Event>)
    ensures var r := After(Fresh(id, buyer, provider, now), events);
            && (r.financialState == RECONCILIATION_REQUIRED ==> r.fence)
            && (NeedsReceipt(r.state) ==> r.receipt != "")
  {
    FreshIsSound(id, buyer, provider, now);
    LifeKeeps(Fresh(id, buyer, provider, now), [], events);
  }

  /** While reconciliation is required, no command lifts the state or the fence or moves money. */
  lemma ReconciliationHolds(r: Order, c: Command, now: int)
    requires Sound(r) && r.financialState == RECONCILIATION_REQUIRED
    ensures Transition(r, c, now).Done? ==>
              && Transition(r, c, now).next.financialState == RECONCILIATION_REQUIRED
              && Transition(r, c, now).next.fence
              && Transition(r, c, now).emitted.None?
  {
    hide ValidText, Authorization, FulfillmentGate, ProvesReview, ValidQuoteAllocation, ValidId;
    assert RECONCILIATION_REQUIRED != "";
    assert !Unordered(r);
  }

  // ----- a proof works once -----

  /** The versions at which a proof can open the fulfillment gate. */
  lemma FulfillmentProofNamesVersion(r: Order, c: Command, now: int)
    requires IsFulfillment(c.kind) && Transition(r, c, now).Done?
    ensures c.fulfillmentProof.Some? && c.fulfillmentProof.value.input.OfFulfillment?
    ensures c.fulfillmentProof.value.input.fulfillment.requestVersion == r.version
    ensures c.fulfillmentProof.value.input.fulfillment.requestId == r.id
  {
    hide QuoteStep, ConfirmStep, StartStep, DeliverStep, JudgeStep, CancelStep, ProposeStep, ConfirmRefundStep,
      ReviewStep, ValidId, Authorization;
  }

  lemma ReviewProofNamesVersion(r: Order, c: Command, now: int)
    requires c.kind.RefundReview? && Transition(r, c, now).Done?
    ensures c.reviewProof.Some? && c.reviewProof.value.input.OfReview?
    ensures c.reviewProof.value.input.review.requestVersion == r.version
    ensures c.reviewProof.value.input.review.requestId == r.id
  {
    hide ValidText, Authorization, FulfillmentGate;
  }

  /** Once a proof has carried a command, no later command can use it, whatever happens in between. */
  lemma ProofWorksOnce(r: Order, first: Command, now: int, events: seq<Event>, second: Command, later: int)
    requires Sound(r) && Transition(r, first, now).Done?
    requires (IsFulfillment(first.kind) && IsFulfillment(second.kind) &&
             second.fulfillmentProof == first.fulfillmentProof) ||
             (first.kind.RefundReview? && second.kind.RefundReview? && second.reviewProof == first.reviewProof)
    ensures !Transition(After(Transition(r, first, now).next, events), second, later).Done?
  {
    hide Transition, Sound, Accounted;
    TransitionKeeps(r, first, now);
    var next := Transition(r, first, now).next;
    VersionGrows(next, events);
    var last := After(next, events);
    if Transition(last, second, later).Done? {
      if IsFulfillment(first.kind) {
        FulfillmentProofNamesVersion(r, first, now);
        FulfillmentProofNamesVersion(last, second, later);
      } else {
        ReviewProofNamesVersion(r, first, now);
        ReviewProofNamesVersion(last, second, later);
      }
      assert false;
    }
  }

  lemma {:induction false} VersionGrows(r: Order, events: seq<Event>)
    requires Sound(r)
    ensures Sound(After(r, events)) && After(r, events).version >= r.version
    decreases |events|
  {
    hide Sound, Step;
    if events != [] {
      StepKeeps(r, events[0]);
      VersionGrows(Step(r, events[0]), events[1..]);
    }
  }
}
