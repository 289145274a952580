# Verified models of the ListingKit protocols

This project models the parts of ListingKit whose promise only holds over whole runs, and proves those promises for
every input, every interleaving and every crash. `dafny verify dfyconfig.toml` checks it.

**Batch import** (`QueueFile`, `QueueStore`, `OfferUrl`, `BatchImport`, `BatchRun`). A local queue file records the
intent to submit before the irreversible handoff click. The disk is a class whose calls may fail, may be cut short,
and whose unflushed directory entries may be lost; browser and person are arbitrary answers. Main results: a reported
save survives every crash (`Disk.Save`); whatever sequence of commands, failures and crashes happens, no link is
handed off twice, and no offer either (`BatchRun.RunAll`), starting from any queue that is stuck or offers no link
twice. A stuck queue cannot be loaded or waits for a person. The condition is exact: its complement is a queue that
runs go on with and that has two capturable items of one link, which `Validate` does not refuse, and there the link is
offered again after its submission (`QueueFile.SharedLinkIsOfferedAgain`); an attempt that dispatched is recorded or
is told to stop and verify, and without a fault on the disk the outcome of an attempt is exactly determined by what
the browser, the application and the person answer (`BatchImport.ImportOne`).

**Schema auditor** (`Json`, `JsonPointer`, `SchemaRules`, `SchemaValidator`, `SchemaSoundness`, `SchemaAuditor`,
`SchemaClauses`, `SchemaCycles`, `SchemaBoundary`). Two depth-first traversals over a document whose references may be
cyclic. Main results: both end and visit exactly what is reachable; success means every reachable schema is safe and
failure that one is not; and whatever an audited schema accepts has no reserved authority field at any depth.
Acceptance is three-valued, so an alternative caught in a reference cycle does not silence the others, and covers
validators that refuse a schema they are already applying to the same instance; those decide every value. The last one
needs references to resolve in the auditor's own index. It is not true without: the traversal does not enter
`propertyNames`, so an anchor declared there is unknown to the audit. `SchemaBoundary` holds a document that passes
the audit and accepts a reserved field, and shows that a reference leads out of the audited schemas exactly when it
names an anchor outside the index. The runtime check of every call is still in place in the program.

**Image generation** (`GenerationFact`, `GenerationExecution`). The durable fact is a value with refusing transitions;
the executor, recovery and all other participants interleave on one repository, whose calls may take effect and still
report failure. Main results: the provider is called at most once per effect identity; transitions keep `Validate` and
never rewrite history; output is returned only for a committed success; recovery, whoever else acts meanwhile, grants
no permit and reports success only for what is absent, unknown or settled; a dispatched generation becomes none only
on evidence; and in calm, when nobody else acts and every call is acknowledged, verdict and fact are determined.

**Service orders** (`ServiceOrder`, `ServiceRequest`, `ServiceOrderLaws`, `ServiceOrderRuns`). `ServiceRequest`
updates a request field by field like the source; `ServiceOrder` says what each step computes; `ServiceOrderLaws` says
who may do what, when it succeeds and what it does; `ServiceOrderRuns` proves what holds over every life of an order,
with any commands and any trading results. Main results: at most one purchase, settlement and cancellation, never a
settlement and a cancellation, all for the confirmed amount; reconciliation holds until a trading result lifts it; a
proof authorizes one transition.

**Merchant onboarding** (`MerchantRevision`, `MerchantHistory`, `MerchantOnboarding`). A leased claim, mark, submit,
observe protocol. Main results: a corrected revision is submitted at most once however many resumes and lease expiries
there are; of all submits of the first revision at most one was made without the channel's statement, under the same
claim, that it knows nothing, namely that of the claim which dispatched it first. In time order that one need not be
the first: no lease is checked between the mark and the submit, so a holder that stalls there is overtaken by a repeat
and submits after it (`MerchantOnboarding.Overtaking`). It is the first whenever its holder still has the claim when
it submits (`MerchantHistory.PromptSubmitIsFirst`). A stored state is always what the channel answered about that
revision, so a correction follows a rejection by the channel.

**Metering and JSON** (`Widths`, `Metering`, `Budget`, `MeteredCall`, `JsonWalk`). Ceiling prices, quotes and the
reserve and settle budget; and the strict JSON walk. Main results: usage within the quoted bounds always settles and
leaves exactly its own charge; over any run the counters are what was observed plus what is still reserved; the walk
accepts exactly the values nested at most 24 deep whose objects have unique names.

Class methods whose state others can change are written with arbitrary choices (`:= *`) and an explicit step for the
others between any two of their own steps.

## Model

| member | source | states |
|---|---|---|
| QueueFile.ApproveScope | internal/batchcapture/queue.go:141-153 | an empty identity is refused; otherwise the batch and every item carry the confirmed identity, and batch id, format and all else in the items stay |
| QueueFile.BlockingItem | internal/batchcapture/queue.go:187-194 | finds the first item a person must look at, and none exactly if there is none |
| QueueFile.StatesDivide | internal/batchcapture/queue.go:171-184 | every known state is capturable, waits for a person, or is submitted or failed, and only one of these |
| QueueFile.ConsistentMeans | internal/batchcapture/queue.go:199-235 | in a queue that passes validation a sequence number names one item, links and states are usable, and what is being submitted belongs to the queue's identity |
| QueueFile.FirstCapturable | internal/batchcapture/import.go:144-153 | finds the first item that may be captured, and none exactly if there is none |
| QueueFile.NextSeq | cmd/1688-batch-import/main.go:344-352 | a sequence number above every one in use |
| QueueFile.OffersOnceExactly | internal/batchcapture/queue.go:171-184 | a queue is stuck or offers no link twice exactly if it is stuck or no link of it is offered again to the next run after its submission |
| QueueFile.SharedLinkIsOfferedAgain | internal/batchcapture/queue.go:199-235 | with two capturable items of one link in a queue that is not stuck, submitting the first leaves a queue that is not stuck and offers the link again |
| QueueStore.Disk.Crash | internal/batchcapture/queue.go:300-320 | power loss leaves one of the contents that were possible, which is then durable |
| QueueStore.Disk.FlushAncestors | internal/batchcapture/queue.go:507-525 | on success every directory name on the path is registered; contents are untouched |
| QueueStore.Disk.Load | internal/batchcapture/queue.go:252-298 | a loaded queue is the visible, consistent one; missing means absent |
| QueueStore.Disk.Restore | internal/batchcapture/queue.go:444-494 | success leaves the previous content visible; a failure leaves the new or the previous one, and nothing else is ever possible |
| QueueStore.Disk.FlushFailedAfterReplace | internal/batchcapture/queue.go:434-440 | without the unrestored mark the previous content is visible |
| QueueStore.Disk.Save | internal/batchcapture/queue.go:325-415 | success is durable, directory names included; failure without the unrestored mark leaves the file as it was; no third content is ever possible; refusal exactly for inconsistent queues; without a fault every consistent queue is saved |
| QueueStore.Disk.SaveThenCrash | internal/batchcapture/queue.go:325-415 | after a reported save and any number of crashes a reader finds that queue (or cannot read at all) |
| OfferUrl.SpellingsNormalize | cmd/1688-batch-import/main.go:60-73 | every admitted spelling of an offer becomes its canonical link |
| OfferUrl.OnlySpellings | cmd/1688-batch-import/main.go:60-73 | only spellings of an offer are accepted |
| OfferUrl.CanonicalInjective | cmd/1688-batch-import/main.go:60-73 | different offers have different canonical links |
| OfferUrl.OneUrlPerOffer | cmd/1688-batch-import/main.go:60-73 | two spellings meet in one queue item exactly if they name one offer; the canonical link is a fixed point |
| BatchImport.GuardsAfterUpdate | internal/batchcapture/import.go:240-256 | recording the intent protects the link before it is handed off, and later records keep the protection |
| BatchImport.ProtectsAfterAppend | cmd/1688-batch-import/main.go:341-352 | adding a link that is not in the queue keeps every handed off link from being offered, and a blocked queue blocked |
| BatchImport.StopWithoutSubmit | internal/batchcapture/import.go:468-498 | whichever record survives, the item is still re-capturable on disk, and the cause is reported; without a fault the file shows it queued |
| BatchImport.StopAfterHandoff | internal/batchcapture/import.go:506-521 | never back to a capturable state; always reported as an unclear outcome, and without a fault recorded as one |
| BatchImport.AfterDispatch | internal/batchcapture/import.go:257-347 | after the click: nil error only with a durable record of what the application said, under the approved identity, and without a fault exactly if everything was answered; otherwise stop and verify |
| BatchImport.SubmitUnderScope | internal/batchcapture/import.go:296-322 | an identity that is not approved yet is shown by the application, equals the expected one and is confirmed by a person before anything is submitted under it |
| BatchImport.RecordOutcome | internal/batchcapture/import.go:318-347 | reported without error exactly as submitted for published and as failed for failed, for the operation and key the application named; every later reader finds that record; any other status is never without error |
| BatchImport.SubmitItem | internal/batchcapture/import.go:228-259 | the intent is durable before the one click; never a reason to redo the item |
| BatchImport.FailItem | internal/batchcapture/import.go:206-213 | reported as failed whether or not the write landed, and never redone; without a fault the file shows it failed |
| BatchImport.CaptureItem | internal/batchcapture/import.go:160-227 | at most one handoff, of this item's link, and only of a captured page without a gate; a person is asked to clear the way exactly for pages that were not seen, are gated, or show neither product nor removal; a redo is offered only for an item still re-capturable on disk |
| BatchImport.ImportOne | internal/batchcapture/import.go:95-347 | safety is kept; a handoff happens only to a run entitled to it: an unblocked queue of the approved identity, or with a way to ask for it, and a captured page; without a fault to every such run, and every other run says why; nil error exactly tells what the application said; a dispatched attempt ends recorded or stop-and-verify; a redo is offered only when nothing was dispatched and the item is re-capturable on disk |
| BatchRun.EnsureQueue | cmd/1688-batch-import/main.go:315-357 | safety is kept; on success the canonical link is in the visible queue and nothing but the end of the list changed; it succeeds only on a missing or consistent file of this identity or none, and without a fault on every such file |
| BatchRun.RepeatWhileGateNeedsAHuman | cmd/1688-batch-import/main.go:185-195 | however often a person clears the gate, one invocation hands off at most once |
| BatchRun.RunCommand | cmd/1688-batch-import/main.go:95-176 | one invocation hands off at most once and keeps safety |
| BatchRun.RunAll | cmd/1688-batch-import/main.go:95-195 | over every sequence of invocations, with failures and with power loss during and after any of them, each link is handed off at most once, and no two handoffs are of one offer if the queue on the disk held canonical links; that queue is stuck or offers no link twice |
| BatchRun.SpellingsShareAHandoff | cmd/1688-batch-import/main.go:60-73 | two spellings of one offer never stand behind two handoffs |
| JsonPointer.EscapeRoundTrip | internal/commercetool/schema.go:560-563 | decoding inverts escaping, as in section 4 of RFC 6901 |
| JsonPointer.PointerRoundTrip | internal/commercetool/schema.go:552-563 | splitting and decoding a rendered pointer yields the location it was rendered for |
| JsonPointer.RenderInjective | internal/commercetool/schema.go:552-563 | two locations with one path text are one location |
| JsonPointer.SchemaPathRenders | internal/commercetool/schema.go:552-558 | extending a path text renders the extended location |
| JsonPointer.HasValidEscapes | internal/commercetool/schema.go:391-402 | true exactly if every tilde is followed by 0 or 1 |
| JsonPointer.PointerIsValid | internal/commercetool/schema.go:391-402 | every rendered pointer passes the escape check |
| JsonPointer.DecimalRoundTrip | internal/commercetool/schema.go:260-268 | an array index is read back from its decimal token |
| JsonPointer.LocationsComplete | internal/commercetool/schema.go:96-113 | every location of a document is in a finite set, which bounds the traversals |
| SchemaRules.SubschemaExists | internal/commercetool/schema.go:221-283 | every subschema that is visited exists in the document |
| SchemaRules.SuccessorExists | internal/commercetool/schema.go:285-340 | every location reached through parts or references exists |
| SchemaClauses.ReservedExactly | internal/commercetool/authority_fields.go:1-27 | the thirteen reserved names |
| SchemaClauses.ContainsReservedExactly | internal/commercetool/invocation.go:148-165 | the runtime check finds a reserved name exactly if some object in the document has one, at whatever depth |
| SchemaClauses.NamesExactly | internal/commercetool/schema.go:152-198 | the check of names passes exactly if patterns compile and no reserved name is described, required, listed as dependent or matched |
| SchemaClauses.ShapeExactly | internal/commercetool/schema.go:404-519 | the shape check passes exactly for closed objects and arrays, and for schemas that hand on or list their values |
| SchemaClauses.LocallySafeExactly | internal/commercetool/schema.go:96-150 | what the audit asks of one schema, clause by clause, in both directions |
| SchemaClauses.SubschemasExactly | internal/commercetool/schema.go:221-283 | the traversal goes to every place of a schema that holds a schema, as the keywords say, and nowhere else |
| SchemaValidator.JudgeStable | internal/commercetool/schema.go:45-66 | a schema's verdict depends only on verdicts already reached |
| SchemaValidator.FuelIrrelevant | internal/commercetool/schema.go:45-66 | a verdict of the validator does not change with more fuel, so acceptance is well defined for cyclic references |
| SchemaCycles.AlternativeSuffices | internal/commercetool/schema.go:45-66 | what one alternative accepts is accepted, even if another leads straight back to the same schema |
| SchemaCycles.CycleRefusalDecides | internal/commercetool/schema.go:45-66 | a validator that refuses a schema it is already applying to the same instance decides every value |
| SchemaSoundness.MemberJudged | internal/commercetool/schema.go:152-198 | in an accepted object no name is reserved and every member was judged at an audited location |
| SchemaSoundness.ElementJudged | internal/commercetool/schema.go:427-435 | in an accepted array every element was judged at an audited location |
| SchemaSoundness.Delegated | internal/commercetool/schema.go:504-511 | where a schema delegates, an accepted value was itself accepted at an audited location |
| SchemaSoundness.NamesRefuseReserved | internal/commercetool/schema.go:440-467 | the required `propertyNames` shape refuses every reserved name |
| SchemaSoundness.AcceptedIsClean | internal/commercetool/schema.go:404-519 | a value accepted at an audited location has no reserved field at any depth, whatever cycles its alternatives run into |
| SchemaSoundness.AuditImpliesRuntimeCheck | internal/commercetool/invocation.go:148-165 | whatever an audited document accepts passes the runtime check |
| SchemaAuditor.ClosedUnderReach | internal/commercetool/schema.go:96-150 | a set closed under parts and references holds everything reachable from it |
| SchemaAuditor.ExploredNode | internal/commercetool/schema.go:96-113 | exploring all successors of a freshly marked location explores that location |
| SchemaAuditor.ExploredMore | internal/commercetool/schema.go:217-219 | explorations from several starts add up although they share marks |
| SchemaAuditor.ExploredExactly | internal/commercetool/schema.go:82-94 | exploring from the root marks exactly what the root reaches |
| SchemaAuditor.AnchorsExtended | internal/commercetool/schema.go:342-356 | indexing one more location keeps the anchor index exact |
| SchemaAuditor.SchemaAuditor.Resolve | internal/commercetool/schema.go:302-340 | the targets are those of the reference: the document, an anchor's schemas, or an existing pointer target |
| SchemaAuditor.SchemaAuditor.Pending | internal/commercetool/schema.go:217-300 | exactly the parts and reference targets of a schema, all existing |
| SchemaAuditor.SchemaAuditor.IndexReachableSchemas | internal/commercetool/schema.go:342-389 | ends on every document, explores from its start, and keeps the anchor index exact |
| SchemaAuditor.SchemaAuditor.AuditSchema | internal/commercetool/schema.go:96-150 | ends on every document; success means all newly visited locations are safe and explored, failure that an unsafe one is reachable |
| SchemaAuditor.SchemaAuditor.AuditDocument | internal/commercetool/schema.go:82-94 | succeeds exactly if every reachable schema is harmless: no reserved name mentioned, local references, the one dialect, no identifier, closed shape; visited and indexed sets are exactly the reachable ones |
| SchemaAuditor.CompileSchema | internal/commercetool/schema.go:45-66 | lets a schema through exactly if its root is a closed object and every reachable schema is harmless; what is let through and compiles as assumed never accepts a value with a reserved member |
| SchemaBoundary.UnindexedTargetIsUnaudited | internal/commercetool/schema.go:221-283 | the failing family: a bare reference to an unindexed target passes the audit and accepts every value |
| SchemaBoundary.ResolvedIffIndexed | internal/commercetool/schema.go:302-319 | a designated target is resolved by the auditor exactly if it is not an anchor outside the index |
| SchemaBoundary.VisitedIsIndexed | internal/commercetool/schema.go:82-94 | a passing audit visits exactly the locations that were indexed, because anchors lead only there |
| SchemaBoundary.LeadsInsideExactly | internal/commercetool/schema.go:285-319 | the references of an audited schema lead to audited locations exactly if every anchor they name is indexed |
| SchemaBoundary.IndexedAnchorsSuffice | internal/commercetool/schema.go:82-150 | an audited document whose referenced anchors are all indexed never accepts a reserved field |
| SchemaBoundary.AuditFindsNothing | internal/commercetool/schema.go:82-150 | the example's audited locations are closed and safe when the anchor is not indexed |
| SchemaBoundary.AuditPasses | internal/commercetool/schema.go:82-94 | the auditor accepts the example document |
| SchemaBoundary.AcceptsReservedField | internal/commercetool/invocation.go:148-165 | the example document accepts a value that the runtime check refuses |
| GenerationFact.StepLaws | internal/imageagent/generation_fact.go:143-261 | every transition keeps validity, terminal states and written parts; a dispatch permit moves the fact from prepared to started |
| GenerationFact.RunLaws | internal/imageagent/generation_fact.go:162-174 | over any run the fact stays valid, history is not rewritten, and the permit is granted at most once |
| GenerationFact.SettlementTellsOutcome | internal/imageagent/generation_fact.go:262-287 | a bound settlement is committed exactly for success and released or without reservation exactly for no generation |
| GenerationFact.RejectionExactly | internal/imageagent/generation_rejection.go:20-57 | a dispatched generation is closed as none exactly by the two kinds of evidence |
| GenerationFact.NothingWithoutEvidence | internal/imageagent/generation_rejection.go:45-57 | over any run a dispatched generation ends as none only through such evidence |
| GenerationFact.NothingInvented | internal/imageagent/generation_fact.go:143-261 | over any run success, reservation and settlement are ones that a command brought, and dispatch follows a begin |
| GenerationFact.ReceiptsAgree | internal/imageagent/generation_fact.go:219-293 | the receipts of a valid fact are of its intent, owner, points and outcome |
| GenerationFact.SuccessExactly | internal/imageagent/generation_fact.go:295-310 | a recordable success has a safe result or a reason, fitting identifiers, and usage that adds up or is not claimed |
| GenerationFact.SettlementFits | internal/imageagent/generation_fact.go:249-287 | the settlement a ledger owes is taken, and taken again |
| GenerationExecution.RecoveryStep | internal/imageagent/generation_recovery.go:47-61 | recovery's changes never start a dispatch and leave a reconciled fact alone |
| GenerationExecution.Effect.Prepare | internal/imageagent/store/generation_fact.go:12-23 | creates the fact or finds the one with the same fingerprint |
| GenerationExecution.Effect.Change | internal/imageagent/store/generation_fact.go:89-142 | applies one transition atomically; an unacknowledged commit grants no permit |
| GenerationExecution.Effect.Interleave | internal/imageagent/generation_recovery.go:36-75 | any number of steps of others keep the invariant; without overlap they are recovery's |
| GenerationExecution.Effect.Finalize | internal/imageagent/generation_execution.go:373-387 | success means a settlement is bound; in calm it always succeeds for a terminal fact |
| GenerationExecution.Effect.CloseBeforeDispatch | internal/imageagent/generation_execution.go:181-191 | reports rejected-before-effect only for a no-generation fact, and in calm always, settled |
| GenerationExecution.Effect.CallProvider | internal/imageagent/generation_execution.go:100-107 | each call uses up one permit; in calm a valid reported success is recorded and charged |
| GenerationExecution.Effect.Conclude | internal/imageagent/generation_execution.go:235-284 | output only for a committed success; rejection only for no generation, on evidence that the provider generated nothing; in calm exactly so |
| GenerationExecution.Effect.Dispatch | internal/imageagent/generation_execution.go:176-284 | the same from the prepared intent on, dying after any step; in calm the verdict is determined by what the collaborators answer |
| GenerationExecution.Effect.GenerateQuotedSlot | internal/imageagent/generation_execution.go:75-284 | at most one provider call by anyone; output only for a committed success; past the first authorization and without overlap, rejected-before-effect only if the fact is absent or no-generation; in calm verdict, fact and number of calls are determined by what the collaborators answer |
| GenerationExecution.Effect.ManyCalls | internal/imageagent/generation_execution.go:75-284 | any number of calls and recovery passes, overlapping or not, call the provider at most once |
| GenerationExecution.Effect.Recover | internal/imageagent/generation_recovery.go:47-52 | one change of recovery among steps of others: no permit, and the state it asked for if it succeeds |
| GenerationExecution.Effect.SettleTerminal | internal/imageagent/generation_recovery.go:59-74 | success means the terminal fact is settled, whoever settled it |
| GenerationExecution.Effect.Reconcile | internal/imageagent/generation_recovery.go:36-75 | with others acting between its steps: grants no permit; succeeds only if the fact it left was absent, unknown, or terminal and settled, and a terminal one still is; without overlapping executors a second pass changes nothing; in calm a prepared fact ends as none and settled, a dispatched one as unknown |
| ServiceOrder.TransitionAdvances | internal/ecoservices/request.go:189-193 | every successful command raises the version by one and leaves receipt, parties and trading revision alone |
| ServiceOrderLaws.OnlyTheRightParty | internal/ecoservices/request.go:9-33 | only the party a command is meant for, at the current version, succeeds with it |
| ServiceOrderLaws.QuoteExactly | internal/ecoservices/request.go:53-69 | when a quote succeeds, and the quote it stores, in both directions |
| ServiceOrderLaws.ConfirmExactly | internal/ecoservices/request.go:70-77 | when a confirmation succeeds, and the purchase it asks for, in both directions |
| ServiceOrderLaws.StartExactly | internal/ecoservices/request.go:78-82 | when work may start, in both directions |
| ServiceOrderLaws.DeliverExactly | internal/ecoservices/request.go:83-99 | when a delivery is taken, and what is stored, in both directions |
| ServiceOrderLaws.AcceptExactly | internal/ecoservices/request.go:100-116 | when a delivery is accepted, and the settlement asked for, in both directions |
| ServiceOrderLaws.RejectExactly | internal/ecoservices/request.go:100-116 | when a delivery is sent back, and what is stored, in both directions |
| ServiceOrderLaws.CancelExactly | internal/ecoservices/request.go:117-131 | when a cancellation succeeds, and what it asks for, in both directions |
| ServiceOrderLaws.ProposeExactly | internal/ecoservices/request.go:132-153 | when a refund may be proposed, and that it fences the order, in both directions |
| ServiceOrderLaws.ConfirmRefundExactly | internal/ecoservices/request.go:154-162 | who confirms a refund for whom, in both directions |
| ServiceOrderLaws.DeclineExactly | internal/ecoservices/request.go:163-188 | when a refund is declined, and when that lifts the fence, in both directions |
| ServiceOrderLaws.GrantExactly | internal/ecoservices/request.go:163-188 | when a refund is granted, and the payment asked for, in both directions |
| ServiceOrderLaws.GateExactly | internal/ecoservices/fulfillment.go:18-44 | the fulfillment gate opens exactly for a proof of this command on this request, version and payment |
| ServiceOrderLaws.ResultExactly | internal/ecoservices/request.go:197-219 | an irrelevant result changes at most the revision; a relevant one is taken, and what it tells is stored |
| ServiceOrderLaws.ResultOutcome | internal/ecoservices/request.go:220-240 | what each trading state does to request state, refund and fence: refunding alone lifts the fence, reconciliation sets it |
| ServiceOrderLaws.ResultVersion | internal/ecoservices/request.go:241-247 | the version rises exactly if a user could see a difference or the payment became known |
| ServiceRequest.Request.TransitionRequest | internal/ecoservices/request.go:8-193 | the new request and emitted command are those of the order's transition; without success nothing changes; with it the command came from the party it is meant for, the version is one higher and the receipt the same |
| ServiceOrder.ResultBounds | internal/ecoservices/request.go:197-247 | a trading result never lowers the version and never changes a receipt, and a refused one writes at most the revision |
| ServiceRequest.Request.ApplyFinancialResult | internal/ecoservices/request.go:197-247 | the new request is that of the trading result; the version never falls, a receipt stays, and a refused result changes at most the revision, written before a conflicting receipt is noticed |
| ServiceOrderRuns.TransitionKeeps | internal/ecoservices/request.go:8-193 | from a reachable order no command panics; a success raises the version by one, keeps the receipt, and explains its emitted command |
| ServiceOrderRuns.ResultKeeps | internal/ecoservices/request.go:197-247 | a trading result emits nothing, never lowers the version and never changes a receipt |
| ServiceOrderRuns.AccountedStep | internal/ecoservices/request.go:44-131 | the log of emitted commands and the order determine each other after every step |
| ServiceOrderRuns.LifeKeeps | internal/ecoservices/request.go:8-247 | the invariant and the account of emitted commands hold over every life |
| ServiceOrderRuns.EmittedOnce | internal/ecoservices/request.go:44-131 | at most one purchase, settlement and cancellation, never settlement and cancellation, all for the confirmed amount; refunds never exceed it |
| ServiceOrderRuns.ReachableIsFenced | internal/ecoservices/request.go:211-224 | in every reachable order reconciliation implies the fence, and a paid, servicing, awaiting or accepted order has a receipt |
| ServiceOrderRuns.ReconciliationHolds | internal/ecoservices/request.go:117-188 | while reconciliation is required no command removes it or the fence or emits a financial command |
| ServiceOrderRuns.FulfillmentProofNamesVersion | internal/ecoservices/fulfillment.go:18-44 | a fulfillment proof that carried a command names that request and version |
| ServiceOrderRuns.ReviewProofNamesVersion | internal/ecoservices/refund_review.go:14-35 | a review proof that carried a command names that request and version |
| ServiceOrderRuns.ProofWorksOnce | internal/ecoservices/fulfillment.go:18-44 | once a proof carried a command no later command can use it, whatever happens in between |
| MerchantOnboarding.Onboarding.TakeClaim | internal/integration/persistence/ecoservices/onboarding.go:223-258 | a live lease is respected; otherwise a new token replaces the old one and the holder sees the stored progress |
| MerchantOnboarding.Onboarding.StoreDispatch | internal/integration/persistence/ecoservices/onboarding.go:311-342 | succeeds exactly for the holder of a live claim with a qualified application, all media stored and nothing observed, first mark or not |
| MerchantOnboarding.Onboarding.MarkDispatched | internal/ecoservices/onboarding.go:322-326 | the holder's mark, reached once per claim and only by one that may mark, keeps the laws of the history |
| MerchantHistory.ClaimedIsValid | internal/integration/persistence/ecoservices/onboarding.go:246-254 | a new claim keeps the laws of the history |
| MerchantHistory.MarkedIsValid | internal/integration/persistence/ecoservices/onboarding.go:311-342 | a dispatch record breaks no claim's law: a holder that marks again has seen the earlier dispatch and a matching absence |
| MerchantHistory.WrittenIsValid | internal/integration/persistence/ecoservices/onboarding.go:343-426 | media, acceptance and release keep dispatch, acceptance and observation in order |
| MerchantHistory.CorrectedIsValid | internal/integration/persistence/ecoservices/onboarding.go:135-146 | a new revision behind a stored rejection keeps the laws of the history |
| MerchantOnboarding.Onboarding.Write | internal/integration/persistence/ecoservices/onboarding.go:259-283 | every other write succeeds exactly under a live claim of the current revision and within what it may change |
| MerchantOnboarding.Onboarding.StoreAnswer | internal/integration/persistence/ecoservices/onboarding.go:343-417 | an answer is stored as given, exactly under a live claim, if it matches, is in a known state, and is about the accepted submit and the application observed so far |
| MerchantOnboarding.Onboarding.Store | internal/integration/persistence/ecoservices/onboarding.go:284-310 | what is stored is the change of what was read |
| MerchantOnboarding.Onboarding.Observe | internal/ecoservices/onboarding.go:362-383 | what is stored is the channel's state for a matching answer, in calm exactly if it may be stored |
| MerchantOnboarding.Onboarding.SaveAcceptance | internal/integration/persistence/ecoservices/merchant_revision.go:106-134 | a saved acceptance is the one the channel gave, in calm whenever it may be saved |
| MerchantHistory.AnsweredIsValid | internal/integration/persistence/ecoservices/onboarding.go:343-417 | a stored answer keeps the laws of the history |
| MerchantOnboarding.Onboarding.Correct | internal/integration/persistence/ecoservices/onboarding.go:75-203 | a new revision exactly behind a stored rejection of a dispatched revision without a live claim |
| MerchantOnboarding.Onboarding.Interleave | internal/ecoservices/onboarding.go:240-351 | whatever the others do, the discipline holds and this holder's claim record is its own |
| MerchantOnboarding.Onboarding.QueryFirst | internal/ecoservices/onboarding.go:263-282 | goes on exactly after verified absence of the first, unobserved, unaccepted revision |
| MerchantOnboarding.Onboarding.ContinueOriginal | internal/ecoservices/onboarding.go:240-351 | a submit under this claim means the revision was not dispatched, or was the first one and verified absent; in calm it submits exactly then, if nothing was observed and the checks pass, and once |
| MerchantOnboarding.Onboarding.SubmitMarked | internal/ecoservices/onboarding.go:327-350 | one submit; in calm the acceptance and the state the channel answered are stored |
| MerchantOnboarding.Onboarding.Read | internal/ecoservices/onboarding.go:384-429 | never marks and never submits; in calm an observable answer is stored |
| MerchantHistory.SubmittedOnce | internal/ecoservices/onboarding.go:261-282 | of any two submits of a revision, in order, the revision is the first one and one of them repeats after verified absence under its own claim |
| MerchantHistory.UnqueriedOnce | internal/ecoservices/onboarding.go:261-282 | at most one submit of a revision does not follow verified absence, the one whose claim found it not dispatched; for a corrected revision that is every submit |
| MerchantHistory.PromptSubmitIsFirst | internal/ecoservices/onboarding.go:323-327 | that submit is the first of its revision if its holder still has the claim |
| MerchantHistory.StateIsAnswered | internal/ecoservices/onboarding.go:376-380 | a stored state other than the first is what the channel answered about this very revision |
| MerchantHistory.CorrectedAfterRejection | internal/integration/persistence/ecoservices/onboarding.go:135-146 | a new revision exists only behind a channel answer that rejected the one before |
| MerchantHistory.OneChannelApplication | internal/integration/persistence/ecoservices/onboarding.go:367-369 | all stored answers about a revision are about one application of the channel |
| MerchantOnboarding.Overtaking | internal/ecoservices/onboarding.go:323-327 | otherwise it can come last: a history in which a stalled holder submits after the repeat |
| MerchantOnboarding.Onboarding.ManyResumes | internal/ecoservices/onboarding.go:109-123 | over any number of resumes, reads and corrections at most one submit of a revision does not follow verified absence, two submits are of the first revision, and every revision that was followed by another had been rejected by the channel |
| MerchantRevision.BoundAnswerMatches | internal/ecoservices/merchant_revision.go:31-42 | exactly which channel answers a bound query believes |
| MerchantRevision.AnswersDoNotCross | internal/ecoservices/onboarding.go:352-361 | an answer that matches a corrected attempt matches no other accepted attempt |
| MerchantRevision.UnboundAbsence | internal/ecoservices/onboarding.go:276-281 | an answer that names no revision matches only a first revision without acceptance |
| Metering.CostFor | internal/aicapability/governed_text.go:105-122 | fails exactly for usage outside the profile or a cost beyond 64 bits; otherwise the sum of two ceilings, one for each term |
| Metering.CostIsTwoCeilings | internal/aicapability/governed_text.go:111-117 | the charge is the sum of the ceilings of the two terms, and no other number is |
| Metering.Points | internal/aicapability/model_point_pricing.go:20-32 | fails exactly for an invalid tariff, negative usage or overflow; otherwise one ceiling of the sum |
| Metering.Validate | internal/aicapability/governed_text.go:57-87 | accepts exactly the profiles in range whose maximal points fit in 64 bits; the cost test never decides |
| Metering.QuoteText | internal/aicapability/governed_text.go:147-192 | quotes exactly the valid profiles whose framed envelope fits both bounds, and binds the quote to that envelope and profile |
| Metering.CostCovers | internal/aicapability/governed_text.go:105-122 | cost charged is at least the exact cost and less than two micros above it |
| Metering.PointsCover | internal/aicapability/model_point_pricing.go:20-32 | points are the least whole number covering the exact price |
| Metering.CostGrows | internal/aicapability/governed_text.go:105-122 | more usage never costs less |
| Metering.PointsGrow | internal/aicapability/model_point_pricing.go:20-32 | more usage never costs fewer points |
| Metering.SplittingNeverSaves | internal/aicapability/governed_text.go:105-122 | two calls never cost less than the one with their sums |
| Metering.RatesBoundCost | internal/aicapability/governed_text.go:70-79 | within the validated ranges no cost comes near 64 bits |
| Metering.PointsOverflow | internal/aicapability/model_point_pricing.go:28-30 | points overflow exactly when the exact price does |
| Metering.ValidatedNeverFails | internal/aicapability/governed_text.go:80-85 | validating the maxima means no admitted usage fails |
| Metering.QuoteCovers | internal/aicapability/governed_text.go:178-191 | observed usage within the quoted bounds stays within the quote, in cost and in tokens |
| Budget.Usage.Step | internal/agent/budget.go:23-29 | counts a step exactly while steps are left |
| Budget.Usage.Reserve | internal/agent/budget.go:32-53 | succeeds exactly for a known quote whose sums stay within the limits; a refusal changes nothing and names the first reason that applies |
| Budget.Usage.Settle | internal/agent/budget.go:55-63 | succeeds exactly for usage the quote covers, and returns the difference |
| Budget.NoOverflow | internal/agent/budget.go:31-53 | from counters within the limits nothing computed leaves 64 bits |
| Budget.ReservingBalances | internal/agent/budget.go:32-53 | a reservation keeps the books balanced |
| Budget.SettlingBalances | internal/agent/budget.go:55-63 | a settlement moves a quote from reserved to observed and keeps the books balanced |
| Budget.RunBalances | internal/agent/budget.go:23-63 | over any run the counters stay within the limits and equal observed usage plus open quotes |
| Budget.FullySettled | internal/agent/budget.go:23-63 | once all is settled the counters are the observed usage |
| Budget.Run | internal/agent/budget.go:18-63 | the counters follow those books |
| MeteredCall.Call | internal/agent/budget.go:31-63 | a reserved call within its quoted bounds always settles and leaves exactly its own tokens and cost |
| JsonWalk.Decoder.Walk | internal/httproute/json.go:24-61 | accepts, and stops, where the walk over the tokens ahead does |
| JsonWalk.AcceptsText | internal/httproute/json.go:62-67 | true exactly for the tokens of one value nested at most 24 deep with unique names at every level |
| JsonWalk.ValueWalked | internal/httproute/json.go:24-61 | on a value's tokens the walk stops behind the value and accepts exactly if it fits |
| JsonWalk.ReadBack | internal/httproute/json.go:24-61 | whatever the walk accepts is a value's tokens |
| JsonWalk.WalkedExactly | internal/httproute/json.go:62-67 | a whole text is walked exactly if it is a fitting value |
| JsonWalk.ConsumesOneValue | internal/httproute/json.go:24-61 | what follows a value is untouched and does not change the verdict |

## Left out

- Page texts: the marker searches of `challenge.go` are two flags; the browser, the extension popup and the application page are arbitrary answers.
- Two processes working on one queue file at the same time, replacement and flushing on Windows, and a root directory that is itself not durable.
- Bytes of the queue file: its digest and encoding are taken to be faithful, and a file that does not decode is one corrupt content.
- BatchRun.RunAll: asks that a queue already on the disk is stuck or offers no link twice, because the property is false otherwise (`QueueFile.SharedLinkIsOfferedAgain`).
- BatchImport.FailItem: does not claim that the reported state is the file's, because the source reports failed even when that write failed.
- Order of schema visits and error texts: the traversals take pending locations in any order and report a flag.
- JSON Schema keywords beyond those the auditor relies on: an arbitrary extra test that can only refuse.
- The rule by which `$dynamicRef` picks its target from the dynamic scope: the target may depend on the scope in any way, within those the auditor resolves it to.
- Array tokens of pointers other than canonical indexes of section 4 of RFC 6901.
- Regular expressions and percent decoding: arbitrary functions shared by auditor and validator.
- SHA-256, UUIDs and fingerprints: modelled as the values they are taken of, so equal hashes mean equal contents.
- Text, URL and digest checks on generation intents and successes: flags or simple bounds; white space is the four ASCII blanks.
- The resource ledger, the storage-capacity writer and the trading adapter: arbitrary answers, in calm those they owe.
- The reopening of late payments and the rest of the service-order persistence; a nil request.
- 64-bit wrap-around of versions and sequence numbers.
- Lease clocks: a lease is live or expired by arbitrary choice. Application review, licence files, sealing, view building and the merchant binding that FINISH asks for in addition are not modelled.
- MerchantOnboarding.Onboarding.StoreDispatch: takes the application's qualification and the state of the lease as given answers.
- Budget.Usage.Reserve: counters already outside the limits are treated without width, because only from within the limits does the source keep to 64 bits.
- Metering.QuoteText: identities, operation and texts of the envelope are one flag, and its encoding is given.
- JsonWalk.AcceptsText: placing commas and colons, and the second decoding pass with its exact field names, are the decoder's.
- Casbin policies, migrations, command wiring, image prompts and the delegating services: they would only add easy members.
