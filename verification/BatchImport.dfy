/** Importing one link at a time: capture is local and repeatable, the handoff click is not. The intent to
    submit is durable before the click, so no crash can make a submitted link look capturable. */
module BatchImport {
  import opened Optional
  import opened QueueFile
  import opened QueueStore

  // ----- page verdicts -----

  datatype Verdict = NotJudged | Proceed | PauseBatch | SingleItemFailure | Indeterminate {
    /** `Action().RedoCurrentItemAfterHuman` */
    predicate RedoAfterHuman() {
      !Proceed? && !SingleItemFailure?
    }
  }

  /** What the executor saw. The two marker flags stand for the text searches over the page. */
  datatype Observation = Observation(performed: bool, gateMarker: bool, delistedMarker: bool)

  function Classify(page: Observation, productData: bool): Verdict {
    if !page.performed then Indeterminate
    else if page.gateMarker then PauseBatch
    else if productData then Proceed
    else if page.delistedMarker then SingleItemFailure
    else PauseBatch
  }

  // ----- errors -----

  datatype Sentinel =
    | QueueCorrupt | QueueMissing | NoQueuedItem | BatchBlocked | QueueWriteFailed | ItemStateUnconfirmed
    | ScopeUnconfirmed | ScopeMismatch | VerdictStop | OutcomeUnclear | ContentUnrestored | OtherFailure

  /** An error is the set of sentinels that `errors.Is` finds in it. */
  datatype Error = NoError | Error(causes: set<Sentinel>) {
    predicate Is(sentinel: Sentinel) {
      Error? && sentinel in causes
    }
  }

  /** `describeStop`: the failures after which the run tells its operator to look into the application first. */
  predicate StopAndVerify(error: Error) {
    error.Is(BatchBlocked) || error.Is(ItemStateUnconfirmed) || error.Is(OutcomeUnclear) || error.Is(QueueCorrupt)
  }

  datatype ImportResult = ImportResult(
    seqNo: int, url: string, state: Option<ItemState>, idempotencyKey: string, operationId: string, verdict: Verdict
  )

  const EMPTY_RESULT := ImportResult(0, "", None, "", "", NotJudged)

  datatype Report = Finished(result: ImportResult, error: Error) | Interrupted

  /** `NeedsVisibleSession`: may the same item be done again once a person cleared the gate? */
  predicate NeedsVisibleSession(report: Report) {
    report.Finished? && report.error.Is(VerdictStop) && report.result.verdict.RedoAfterHuman()
  }

  // ----- the outside world -----

  datatype Scope = Scope(actor: string, organization: string)

  datatype Options = Options(approved: Scope, canAsk: bool)

  datatype Reply = Fine | Fault(causes: set<Sentinel>)

  /** Everything the browser and the person answer during one attempt. */
  datatype Session = Session(
    prepare: Reply, page: Observation, captured: bool, prepareHandoff: Reply,
    dispatch: Reply, awaitHandoff: Reply, key: Option<string>, appPage: Reply, ready: Reply,
    readScope: Reply, observed: Scope, ask: Reply, confirmed: bool, submit: Reply, status: string, operationId: string
  )

  /** The application, as far as the executor can affect it: the links whose handoff was dispatched. */
  class Application {
    var received: seq<string>
    /** The links that may come here, as far as one cares to tell. */
    ghost const links: iset<string>

    constructor (ghost links: iset<string>)
      ensures received == [] && this.links == links
    {
      this.links, received := links, [];
    }

    /** `DispatchHandoff`: a click counts whether or not anything was heard of it afterwards. */
    method DispatchHandoff(url: string)
      modifies this
      ensures received == old(received) + [url]
    {
      received := received + [url];
    }
  }

  // ----- safety -----

  ghost predicate NoRepeats(urls: seq<string>) {
    forall i, j | 0 <= i < j < |urls| :: urls[i] != urls[j]
  }

  ghost predicate LinksAmong(queue: Queue, links: iset<string>) {
    forall i | 0 <= i < |queue.items| :: queue.items[i].url in links
  }

  /** This queue will never let a received link be captured again: it knows all of them, offers none of them, and
      offers no other link twice. Its links are among those that may be received at all. */
  ghost predicate Guards(queue: Queue, links: iset<string>, received: seq<string>) {
    && OffersOnce(queue)
    && LinksAmong(queue, links)
    && (forall url | url in received :: queue.HasUrl(url))
    && (forall i | 0 <= i < |queue.items| && Queue.CanRecapture(queue.items[i].state) ::
          queue.items[i].url !in received)
  }

  ghost predicate Protects(content: Content, links: iset<string>, received: seq<string>) {
    match content
    case Absent => received == []
    case Torn => true
    case Stored(queue) => (Stuck(queue) && received == []) || Guards(queue, links, received)
  }

  /** No link was received twice, and whatever a crash leaves on the disk protects all of them. */
  ghost predicate Safe(disk: Disk, app: Application)
    reads disk, app
  {
    && disk.Valid()
    && NoRepeats(app.received) && (forall url | url in app.received :: url in app.links)
    && forall content | content in disk.Possible() :: Protects(content, app.links, app.received)
  }

  /** The queue in memory holds item `i` beyond recapture. */
  ghost predicate Holds(queue: Queue, i: nat, url: string, links: iset<string>, received: seq<string>) {
    && Guards(queue, links, received) && url in received
    && i < |queue.items| && queue.items[i].url == url && !Queue.CanRecapture(queue.items[i].state)
  }

  /** The queue in memory still lets item `i` be captured. */
  ghost predicate Offers(queue: Queue, i: nat, links: iset<string>, received: seq<string>) {
    Guards(queue, links, received) && i < |queue.items| && Queue.CanRecapture(queue.items[i].state)
  }

  /** Recording a change of an item that was offered or handed off keeps the protection; a state beyond recapture
      protects the link before it is handed off. */
  lemma GuardsAfterUpdate(queue: Queue, i: nat, item: Item, links: iset<string>, received: seq<string>)
    requires Guards(queue, links, received) && i < |queue.items| && item.url == queue.items[i].url
    requires Queue.CanRecapture(queue.items[i].state) || item.url in received
    requires item.url in received ==> !Queue.CanRecapture(item.state)
    ensures Guards(queue.WithItem(i, item), links, received)
    ensures !Queue.CanRecapture(item.state) ==> Guards(queue.WithItem(i, item), links, received + [item.url])
  {
    var updated := queue.WithItem(i, item);
    SameUrls(queue, updated);
    forall k | 0 <= k < |updated.items| && k != i
      ensures updated.items[k] == queue.items[k]
    {
    }
    assert updated.items[i] == item && updated.HasUrl(item.url);
  }

  lemma SameUrls(queue: Queue, updated: Queue)
    requires |updated.items| == |queue.items|
    requires forall k | 0 <= k < |queue.items| :: updated.items[k].url == queue.items[k].url
    ensures forall url | queue.HasUrl(url) :: updated.HasUrl(url)
  {
    forall url | queue.HasUrl(url)
      ensures updated.HasUrl(url)
    {
      var k :| 0 <= k < |queue.items| && queue.items[k].url == url;
      assert updated.items[k].url == url;
    }
  }

  lemma GuardsAfterApproval(queue: Queue, approved: Queue, links: iset<string>, received: seq<string>)
    requires Guards(queue, links, received) && |approved.items| == |queue.items|
    requires forall k | 0 <= k < |queue.items| ::
               approved.items[k].url == queue.items[k].url && approved.items[k].state == queue.items[k].state
    ensures Guards(approved, links, received)
  {
    SameUrls(queue, approved);
  }

  /** A new link is added to a queue that guards, or that is blocked and stays so. */
  lemma ProtectsAfterAppend(queue: Queue, item: Item, links: iset<string>, received: seq<string>)
    requires Protects(Stored(queue), links, received) && queue.Consistent()
    requires !queue.HasUrl(item.url) && item.url in links
    ensures Protects(Stored(queue.(items := queue.items + [item])), links, received)
  {
    var longer := queue.(items := queue.items + [item]);
    assert forall k | 0 <= k < |queue.items| :: longer.items[k] == queue.items[k];
    if Stuck(queue) && received == [] {
      var k :| 0 <= k < |queue.items| && Queue.RequiresHumanReview(queue.items[k].state);
      assert Queue.RequiresHumanReview(longer.items[k].state);
    } else {
      GuardsAfterAppend(queue, item, links, received);
    }
  }

  lemma GuardsAfterAppend(queue: Queue, item: Item, links: iset<string>, received: seq<string>)
    requires Guards(queue, links, received) && !queue.HasUrl(item.url) && item.url in links
    ensures Guards(queue.(items := queue.items + [item]), links, received)
  {
    var longer := queue.(items := queue.items + [item]);
    forall url | url in received
      ensures longer.HasUrl(url)
    {
      var k :| 0 <= k < |queue.items| && queue.items[k].url == url;
      assert longer.items[k] == queue.items[k];
    }
    assert forall k | 0 <= k < |queue.items| :: longer.items[k] == queue.items[k];
  }

  /** The item is on this disk, in a state that may be captured again. */
  ghost predicate Redoable(content: Content, result: ImportResult) {
    content.Stored? && exists i | 0 <= i < |content.queue.items| ::
      content.queue.items[i].seqNo == result.seqNo && content.queue.items[i].url == result.url &&
      Queue.CanRecapture(content.queue.items[i].state)
  }

  /** The reported terminal state is what every later reader of the queue will find. */
  ghost predicate Recorded(disk: Disk, result: ImportResult)
    reads disk
    requires disk.Valid()
  {
    && result.state in {Some(Submitted), Some(ItemFailed)}
    && disk.visible.Stored? && disk.Durable(disk.visible)
    && exists i | 0 <= i < |disk.visible.queue.items| ::
         disk.visible.queue.items[i].seqNo == result.seqNo && disk.visible.queue.items[i].url == result.url &&
         Some(disk.visible.queue.items[i].state) == result.state &&
         disk.visible.queue.items[i].operationId == result.operationId &&
         disk.visible.queue.items[i].idempotencyKey == result.idempotencyKey
  }

  /** A report without an error says what the application said, about the operation it named. */
  ghost predicate Truthful(report: Report, session: Session) {
    report.Finished? && report.error.NoError? ==>
      && (report.result.state == Some(Submitted) <==> session.status == "published")
      && (report.result.state == Some(ItemFailed) <==> session.status == "failed")
      && session.status in {"published", "failed"} && session.submit.Fine?
      && report.result.operationId == session.operationId && session.key == Some(report.result.idempotencyKey)
  }

  /** The recorded result belongs to the approved identity. */
  ghost predicate Attributed(disk: Disk, approved: Scope)
    reads disk
  {
    disk.visible.Stored? && disk.visible.queue.ScopeMatches(approved.actor, approved.organization)
  }

  // ----- what the outside world must answer -----

  /** The page was seen without a gate, its product was captured, and the handoff could be prepared. */
  ghost predicate Captured(session: Session) {
    && session.prepare.Fine? && session.page.performed && !session.page.gateMarker && session.captured
    && session.prepareHandoff.Fine?
  }

  /** The application shows the approved identity and a person confirms it. */
  ghost predicate Consented(session: Session, approved: Scope) {
    && session.readScope.Fine? && session.observed == approved && session.ask.Fine? && session.confirmed
    && approved.actor != "" && approved.organization != ""
  }

  /** After the click everything is heard of, up to a terminal status. */
  ghost predicate Answered(session: Session, approved: Scope, needConsent: bool) {
    && session.dispatch.Fine? && session.awaitHandoff.Fine? && session.key.Some?
    && session.appPage.Fine? && session.ready.Fine? && (needConsent ==> Consented(session, approved))
    && session.submit.Fine? && session.status in {"published", "failed"}
  }

  /** What a run reports that does not get as far as the browser. */
  ghost predicate Explained(content: Content, opts: Options, report: Report) {
    && (content.Absent? ==> report.Finished? && report.error.Is(QueueMissing))
    && (content.Torn? || (content.Stored? && !content.queue.Consistent()) ==>
          report.Finished? && report.error.Is(QueueCorrupt) && StopAndVerify(report.error))
    && (content.Stored? && content.queue.Consistent() ==>
          if Stuck(content.queue) then report.Finished? && report.error.Is(BatchBlocked) && StopAndVerify(report.error)
          else if !content.queue.scopeApproved && !opts.canAsk then
            report.Finished? && report.error.Is(ScopeUnconfirmed)
          else if content.queue.scopeApproved &&
                  !content.queue.ScopeMatches(opts.approved.actor, opts.approved.organization) then
            report.Finished? && report.error.Is(ScopeMismatch)
          else
            (forall i | 0 <= i < |content.queue.items| :: !Queue.CanRecapture(content.queue.items[i].state)) ==>
              report.Finished? && report.error.Is(NoQueuedItem))
  }

  /** A run may hand off: the file holds a queue that nothing blocks, for the approved identity or with a way to ask for
      it, with something left to capture, and the page was captured. */
  ghost predicate Entitled(content: Content, opts: Options, session: Session) {
    && content.Stored? && !Stuck(content.queue) && Captured(session)
    && (if content.queue.scopeApproved
        then content.queue.actorId == opts.approved.actor && content.queue.organizationId == opts.approved.organization
        else opts.canAsk)
    && exists i | 0 <= i < |content.queue.items| :: Queue.CanRecapture(content.queue.items[i].state)
  }

  /** The file holds the item in this state. */
  ghost predicate Shows(content: Content, i: nat, state: ItemState) {
    content.Stored? && i < |content.queue.items| && content.queue.items[i].state == state
  }

  // ----- persisting -----

  method Persist(disk: Disk, app: Application, queue: Queue) returns (r: SaveResult)
    requires Safe(disk, app) && Protects(Stored(queue), app.links, app.received)
    modifies disk
    ensures Safe(disk, app)
    ensures r == Saved ==> disk.Durable(Stored(queue)) && queue.Consistent()
    ensures disk.faultless && queue.Consistent() ==> r == Saved
    ensures r in {Refused, NotSaved} ==> disk.visible == old(disk.visible)
    ensures r == Unrestored ==> disk.visible in {old(disk.visible), Stored(queue)}
  {
    r := disk.Save(queue);
  }

  /** The process or the machine may stop between any two steps. */
  method MayStop(disk: Disk, app: Application) returns (stopped: bool)
    requires Safe(disk, app)
    modifies disk
    ensures Safe(disk, app)
    ensures !stopped ==> unchanged(disk)
    ensures disk.faultless ==> !stopped
  {
    stopped := *;
    stopped := stopped && !disk.faultless;
    if stopped {
      disk.Interrupt();
    }
  }

  // ----- stopping -----

  /** `stopWithoutSubmit`: before the handoff, so the item stays capturable whichever record survives. */
  method StopWithoutSubmit(disk: Disk, app: Application, queue: Queue, i: nat, result: ImportResult,
      causes: set<Sentinel>)
    returns (report: Report)
    requires Safe(disk, app) && Offers(queue, i, app.links, app.received) && disk.visible == Stored(queue)
    requires result.seqNo == queue.items[i].seqNo && result.url == queue.items[i].url
    modifies disk
    ensures Safe(disk, app)
    ensures report.Finished? ==> report.error.Error? && causes <= report.error.causes
    ensures report.Finished? ==> report.result == result.(state := report.result.state)
    ensures report.Finished? ==> Redoable(disk.visible, result)
    ensures disk.faultless && queue.Consistent() ==>
              report.Finished? && report.result.state == Some(Queued) && Shows(disk.visible, i, Queued)
  {
    var reverted := queue.WithState(i, Queued, "stopped");
    GuardsAfterUpdate(queue, i, reverted.items[i], app.links, app.received);
    assert reverted.items[i].seqNo == result.seqNo && reverted.items[i].url == result.url;
    if queue.Consistent() {
      ConsistentAfterUpdate(queue, i, reverted.items[i]);
    }
    var saved := Persist(disk, app, reverted);
    match saved
    case Lost => return Interrupted;
    case Saved => return Finished(result.(state := Some(Queued)), Error(causes));
    case Unrestored => return Finished(result.(state := Some(Queued)), Error(causes + {QueueWriteFailed}));
    case _ => return Finished(result.(state := Some(queue.items[i].state)), Error(causes + {QueueWriteFailed}));
  }

  /** `unconfirmedWrite`: the cause is not wrapped, so a failed record never reads as a clearable gate. */
  function UnconfirmedWrite(result: ImportResult, outcomeUnclear: bool): Report {
    Finished(result.(state := Some(Submitting)),
             Error({QueueWriteFailed, ItemStateUnconfirmed} + if outcomeUnclear then {OutcomeUnclear} else {}))
  }

  /** `stopAfterHandoff`: never back to a capturable state. */
  method StopAfterHandoff(disk: Disk, app: Application, queue: Queue, i: nat, result: ImportResult,
      causes: set<Sentinel>)
    returns (report: Report)
    requires Safe(disk, app) && Holds(queue, i, result.url, app.links, app.received)
    modifies disk
    ensures Safe(disk, app)
    ensures report.Finished? ==> report.error.Is(OutcomeUnclear)
    ensures report.Finished? ==> report.result == result.(state := report.result.state)
    ensures disk.faultless && queue.Consistent() ==>
              report.Finished? && report.result.state == Some(OutcomeUnknown) && Shows(disk.visible, i, OutcomeUnknown)
  {
    var marked := queue.WithState(i, OutcomeUnknown, "outcome unknown");
    GuardsAfterUpdate(queue, i, marked.items[i], app.links, app.received);
    if queue.Consistent() {
      ConsistentAfterUpdate(queue, i, marked.items[i]);
    }
    var saved := Persist(disk, app, marked);
    report := if saved == Lost then Interrupted
              else if saved == Saved then Finished(result.(state := Some(OutcomeUnknown)),
                Error({OutcomeUnclear} + causes))
              else UnconfirmedWrite(result, true);
  }

  // ----- one attempt -----

  /** The contract of an attempt from any point on. */
  ghost predicate Accountable(report: Report, dispatched: bool) {
    report.Finished? ==>
      && (dispatched && report.error.Error? ==> StopAndVerify(report.error))
      && (report.error.NoError? ==> dispatched)
      && (NeedsVisibleSession(report) ==> !dispatched)
  }

  /** After the click: read the key, confirm the scope, submit, record the terminal result. */
  method AfterDispatch(disk: Disk, app: Application, queue0: Queue, i: nat, result0: ImportResult,
                       opts: Options, needConsent: bool, session: Session) returns (report: Report)
    requires Safe(disk, app) && Holds(queue0, i, result0.url, app.links, app.received) && result0.verdict == Proceed
    requires queue0.items[i].seqNo == result0.seqNo && queue0.Consistent()
    requires needConsent == !queue0.scopeApproved
    requires !needConsent ==> queue0.ScopeMatches(opts.approved.actor, opts.approved.organization)
    modifies disk
    ensures Safe(disk, app) && Accountable(report, true) && Truthful(report, session)
    ensures report.Finished? && report.error.NoError? ==>
              Attributed(disk, opts.approved) && Answered(session, opts.approved, needConsent)
    ensures disk.faultless && Answered(session, opts.approved, needConsent) ==>
            report.Finished? && report.error.NoError?
    ensures report.Finished? ==> report.result.seqNo == result0.seqNo && report.result.url == result0.url
    ensures report.Finished? && report.error.NoError? ==> Recorded(disk, report.result)
  {
    hide Guards;
    var queue, result := queue0, result0;
    if session.dispatch.Fault? || session.awaitHandoff.Fault? || session.key.None? {
      var causes := if session.dispatch.Fault? then session.dispatch.causes
                    else if session.awaitHandoff.Fault? then session.awaitHandoff.causes else {OtherFailure};
      report := StopAfterHandoff(disk, app, queue, i, result, causes);
      return;
    }
    queue := queue.WithItem(i, queue.items[i].(idempotencyKey := session.key.value));
    result := result.(idempotencyKey := session.key.value);
    GuardsAfterUpdate(queue0, i, queue.items[i], app.links, app.received);
    ConsistentAfterUpdate(queue0, i, queue.items[i]);
    var saved := Persist(disk, app, queue);
    if saved != Saved {
      return if saved == Lost then Interrupted else UnconfirmedWrite(result, true);
    }
    var stopped := MayStop(disk, app);
    if stopped {
      return Interrupted;
    }
    if session.appPage.Fault? || session.ready.Fault? {
      report := StopAfterHandoff(disk, app, queue, i, result,
        if session.appPage.Fault? then session.appPage.causes else session.ready.causes);
      return;
    }
    report := SubmitUnderScope(disk, app, queue, i, result, opts, needConsent, session);
  }

  /** The identity is confirmed where the queue has none yet, and made durable before it is acted on. */
  method SubmitUnderScope(disk: Disk, app: Application, queue: Queue, i: nat, result: ImportResult,
                          opts: Options, needConsent: bool, session: Session) returns (report: Report)
    requires Safe(disk, app) && Holds(queue, i, result.url, app.links, app.received) && result.verdict == Proceed
    requires queue.items[i].seqNo == result.seqNo && queue.Consistent()
    requires session.key == Some(result.idempotencyKey) && queue.items[i].idempotencyKey == result.idempotencyKey
    requires needConsent == !queue.scopeApproved
    requires !needConsent ==> queue.ScopeMatches(opts.approved.actor, opts.approved.organization)
    modifies disk
    ensures Safe(disk, app) && Accountable(report, true) && Truthful(report, session)
    ensures report.Finished? ==> report.result.seqNo == result.seqNo && report.result.url == result.url
    ensures report.Finished? && report.error.NoError? ==>
              && Recorded(disk, report.result) && Attributed(disk, opts.approved)
              && (needConsent ==> Consented(session, opts.approved))
    ensures disk.faultless && (needConsent ==> Consented(session, opts.approved)) && session.submit.Fine? &&
            session.status in {"published", "failed"} ==>
              report.Finished? && report.error.NoError?
  {
    hide Guards, Queue.Consistent;
    var bound := queue;
    if needConsent {
      var refusal := ConfirmScope(opts, session);
      if refusal.Fault? {
        report := StopAfterHandoff(disk, app, queue, i, result, refusal.causes);
        return;
      }
      var approved := ApproveScope(queue, session.observed.actor, session.observed.organization);
      if approved.None? {
        report := StopAfterHandoff(disk, app, queue, i, result, {OtherFailure});
        return;
      }
      bound := approved.value;
      GuardsAfterApproval(queue, bound, app.links, app.received);
      ConsistentAfterApproval(queue, bound, session.observed.actor, session.observed.organization);
      var saved := Persist(disk, app, bound);
      if saved != Saved {
        return if saved == Lost then Interrupted else UnconfirmedWrite(result, true);
      }
    }
    var stopped := MayStop(disk, app);
    if stopped {
      return Interrupted;
    }
    report := RecordOutcome(disk, app, bound, i, result, opts.approved, session);
  }

  /** `confirmScope`: the application's identity, the operator's expectation, a person's yes. */
  function ConfirmScope(opts: Options, session: Session): Reply {
    if session.readScope.Fault? then session.readScope
    else if session.observed != opts.approved then Fault({ScopeMismatch})
    else if session.ask.Fault? then session.ask
    else if !session.confirmed then Fault({ScopeUnconfirmed})
    else Fine
  }

  /** `ConfirmAndSubmit` under the approved identity, and the record of its outcome. */
  method RecordOutcome(disk: Disk, app: Application, queue: Queue, i: nat, result: ImportResult, approved: Scope,
                       session: Session) returns (report: Report)
    requires Safe(disk, app) && Holds(queue, i, result.url, app.links, app.received) && result.verdict == Proceed
    requires queue.items[i].seqNo == result.seqNo && queue.Consistent()
    requires session.key == Some(result.idempotencyKey) && queue.items[i].idempotencyKey == result.idempotencyKey
    requires queue.ScopeMatches(approved.actor, approved.organization)
    modifies disk
    ensures Safe(disk, app) && Accountable(report, true) && Truthful(report, session)
    ensures report.Finished? && report.error.NoError? ==> Attributed(disk, approved)
    ensures disk.faultless && session.submit.Fine? && session.status in {"published", "failed"} ==>
              report.Finished? && report.error.NoError?
    ensures report.Finished? ==> report.result.seqNo == result.seqNo && report.result.url == result.url
    ensures report.Finished? && report.error.NoError? ==> Recorded(disk, report.result)
  {
    hide Guards, Queue.Consistent;
    if session.submit.Fault? {
      report := StopAfterHandoff(disk, app, queue, i, result, session.submit.causes);
      return;
    }
    var state := if session.status == "published" then Submitted
                 else if session.status == "failed" then ItemFailed else OutcomeUnknown;
    var reason := if state == ItemFailed then "application reported a terminal failure"
                  else if state == OutcomeUnknown then "unrecognised terminal status" else queue.items[i].reason;
    var item := queue.items[i].(operationId := session.operationId, state := state, reason := reason);
    var final := queue.WithItem(i, item);
    var reported := result.(operationId := session.operationId, state := Some(state));
    GuardsAfterUpdate(queue, i, item, app.links, app.received);
    ConsistentAfterUpdate(queue, i, item);
    var saved := Persist(disk, app, final);
    if saved != Saved {
      return if saved == Lost then Interrupted else UnconfirmedWrite(reported, true);
    }
    assert final.items[i] == item;
    report := Finished(reported, if state == OutcomeUnknown then Error({OutcomeUnclear}) else NoError);
  }

  /** Phase one: the intent is durable, then the click. */
  method SubmitItem(disk: Disk, app: Application, queue: Queue, i: nat, result: ImportResult,
                    opts: Options, needConsent: bool, session: Session) returns (report: Report)
    requires Safe(disk, app) && Offers(queue, i, app.links, app.received) && disk.visible == Stored(queue)
    requires result.seqNo == queue.items[i].seqNo && result.url == queue.items[i].url && result.verdict == Proceed
    requires queue.Consistent() && needConsent == !queue.scopeApproved
    requires !needConsent ==> queue.ScopeMatches(opts.approved.actor, opts.approved.organization)
    modifies disk, app
    ensures Safe(disk, app) && Truthful(report, session)
    ensures report.Finished? && report.error.NoError? ==>
              Attributed(disk, opts.approved) && Answered(session, opts.approved, needConsent)
    ensures disk.faultless ==> app.received == old(app.received) + [result.url]
    ensures disk.faultless && Answered(session, opts.approved, needConsent) ==>
            report.Finished? && report.error.NoError?
    ensures app.received in {old(app.received), old(app.received) + [result.url]}
    ensures Accountable(report, app.received != old(app.received))
    ensures report.Finished? ==> report.result.seqNo == result.seqNo && report.result.url == result.url
    ensures report.Finished? && report.error.NoError? ==> Recorded(disk, report.result)
    ensures !NeedsVisibleSession(report)
  {
    var previous := queue.items[i].state;
    var scope := if needConsent then Scope("", "") else opts.approved;
    var item := queue.items[i].(state := Submitting, actorId := scope.actor, organizationId := scope.organization);
    var intent := queue.WithItem(i, item);
    GuardsAfterUpdate(queue, i, item, app.links, app.received);
    ConsistentAfterUpdate(queue, i, item);
    var saved := Persist(disk, app, intent);
    if saved != Saved {
      // `phaseOneFailedWrite`: nothing was handed off; only an unrestored file leaves the state in doubt.
      return if saved == Lost then Interrupted
             else if saved == Unrestored then UnconfirmedWrite(result, false)
             else Finished(result.(state := Some(previous)), Error({QueueWriteFailed}));
    }
    var stopped := MayStop(disk, app);
    if stopped {
      return Interrupted;
    }
    app.DispatchHandoff(result.url);
    stopped := MayStop(disk, app);
    if stopped {
      return Interrupted;
    }
    report := AfterDispatch(disk, app, intent, i, result, opts, needConsent, session);
  }

  /** The single-item failure: recorded as failed when the write lands, reported as failed either way. */
  method FailItem(disk: Disk, app: Application, queue: Queue, i: nat, result: ImportResult) returns (report: Report)
    requires Safe(disk, app) && Offers(queue, i, app.links, app.received) && result.verdict == SingleItemFailure
    modifies disk
    ensures Safe(disk, app)
    ensures report.Finished? ==> report.error.Error? && !NeedsVisibleSession(report)
    ensures report.Finished? ==> report.result.state == Some(ItemFailed)
    ensures report.Finished? ==> report.result == result.(state := Some(ItemFailed))
    ensures disk.faultless && queue.Consistent() ==> report.Finished? && Shows(disk.visible, i, ItemFailed)
  {
    var failed := queue.WithState(i, ItemFailed, "page classified as single_item_failure");
    GuardsAfterUpdate(queue, i, failed.items[i], app.links, app.received);
    if queue.Consistent() {
      ConsistentAfterUpdate(queue, i, failed.items[i]);
    }
    var saved := Persist(disk, app, failed);
    report := if saved == Lost then Interrupted
              else Finished(result.(state := Some(ItemFailed)),
                Error({if saved == Saved then VerdictStop else QueueWriteFailed}));
  }

  /** Navigate, judge the page, capture, and hand off only what was captured. */
  method CaptureItem(disk: Disk, app: Application, queue: Queue, i: nat, opts: Options, needConsent: bool,
      session: Session)
    returns (report: Report)
    requires Safe(disk, app) && Offers(queue, i, app.links, app.received) && disk.visible == Stored(queue)
    requires queue.Consistent() && needConsent == !queue.scopeApproved
    requires !needConsent ==> queue.ScopeMatches(opts.approved.actor, opts.approved.organization)
    modifies disk, app
    ensures Safe(disk, app) && Truthful(report, session)
    ensures report.Finished? && report.error.NoError? ==>
              Attributed(disk, opts.approved) && Answered(session, opts.approved, needConsent)
    ensures app.received != old(app.received) ==> Captured(session)
    ensures disk.faultless && Captured(session) ==> app.received == old(app.received) + [queue.items[i].url]
    ensures disk.faultless && Captured(session) && Answered(session, opts.approved, needConsent) ==>
              report.Finished? && report.error.NoError?
    // A person is asked to clear the way exactly for a page that was not seen, is gated, or shows neither a product nor
    // that it is gone.
    ensures report.Finished? && session.prepare.Fine? ==>
              (NeedsVisibleSession(report) <==>
                !session.page.performed || session.page.gateMarker ||
                  (!session.captured && !session.page.delistedMarker))
    ensures report.Finished? && session.prepare.Fine? && session.page == Observation(true, false, true) &&
            !session.captured ==>
              report.result.state == Some(ItemFailed)
    ensures app.received in {old(app.received), old(app.received) + [queue.items[i].url]}
    ensures Accountable(report, app.received != old(app.received))
    ensures report.Finished? ==> report.result.seqNo == queue.items[i].seqNo && report.result.url == queue.items[i].url
    ensures report.Finished? && report.error.NoError? ==> Recorded(disk, report.result)
    ensures NeedsVisibleSession(report) ==> Redoable(disk.visible, report.result)
  {
    var result := EMPTY_RESULT.(seqNo := queue.items[i].seqNo, url := queue.items[i].url);
    if session.prepare.Fault? {
      report := StopWithoutSubmit(disk, app, queue, i, result, session.prepare.causes);
      return;
    }
    if !session.page.performed || session.page.gateMarker {
      report := StopWithoutSubmit(disk, app, queue, i, result.(verdict := Classify(session.page, false)),
        {VerdictStop});
      return;
    }
    result := result.(verdict := Classify(session.page, session.captured));
    if result.verdict == SingleItemFailure {
      report := FailItem(disk, app, queue, i, result);
    } else if result.verdict != Proceed {
      report := StopWithoutSubmit(disk, app, queue, i, result, {VerdictStop});
    } else if session.prepareHandoff.Fault? {
      report := StopWithoutSubmit(disk, app, queue, i, result, session.prepareHandoff.causes);
    } else {
      report := SubmitItem(disk, app, queue, i, result, opts, needConsent, session);
    }
  }

  /** `ImportOne` */
  method ImportOne(disk: Disk, app: Application, opts: Options, session: Session) returns (report: Report)
    requires Safe(disk, app)
    modifies disk, app
    ensures Safe(disk, app) && Truthful(report, session)
    ensures report.Finished? && report.error.NoError? ==>
              Attributed(disk, opts.approved) && old(disk.visible).Stored? &&
              Answered(session, opts.approved, !old(disk.visible).queue.scopeApproved)
    // Without a fault a run that is not entitled to anything says why, in this order.
    ensures disk.faultless ==> Explained(old(disk.visible), opts, report)
    // A handoff happens only to a run that is entitled to it, and without a fault to every such run.
    ensures app.received != old(app.received) ==> Entitled(old(disk.visible), opts, session)
    ensures disk.faultless && Entitled(old(disk.visible), opts, session) ==> |app.received| == |old(app.received)| + 1
    ensures disk.faultless && Entitled(old(disk.visible), opts, session) &&
            Answered(session, opts.approved, !old(disk.visible).queue.scopeApproved) ==>
              report.Finished? && report.error.NoError?
    ensures |old(app.received)| <= |app.received| <= |old(app.received)| + 1 && old(app.received) <= app.received
    ensures Accountable(report, app.received != old(app.received))
    ensures report.Finished? && report.error.NoError? ==> Recorded(disk, report.result)
    ensures NeedsVisibleSession(report) ==> Redoable(disk.visible, report.result)
  {
    var loaded := disk.Load();
    if !loaded.Loaded? {
      return Finished(EMPTY_RESULT, Error({if loaded.Missing? then QueueMissing else QueueCorrupt}));
    }
    var queue := loaded.queue;
    var blocked := BlockingItem(queue);
    if blocked.Some? {
      var item := queue.items[blocked.value];
      return Finished(EMPTY_RESULT.(seqNo := item.seqNo, url := item.url, state := Some(item.state)),
        Error({BatchBlocked}));
    }
    assert !Stuck(queue) && Protects(Stored(queue), app.links, app.received);
    var needConsent := !queue.scopeApproved;
    if needConsent && !opts.canAsk {
      return Finished(EMPTY_RESULT, Error({ScopeUnconfirmed}));
    }
    if !needConsent && !queue.ScopeMatches(opts.approved.actor, opts.approved.organization) {
      return Finished(EMPTY_RESULT, Error({ScopeMismatch}));
    }
    var chosen := FirstCapturable(queue);
    if chosen.None? {
      return Finished(EMPTY_RESULT, Error({NoQueuedItem}));
    }
    report := CaptureItem(disk, app, queue, chosen.value, opts, needConsent, session);
  }
}
