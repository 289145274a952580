/** The executor's one durable fact: which links it intends to submit and how far each one got. */
module QueueFile {

  import opened Optional

  datatype ItemState =
    | Queued
    | Capturing
    | Captured
    | Submitting
    | Submitted
    | ItemFailed
    | OutcomeUnknown
    | Unrecognised(text: string)

  datatype Item = Item(
    seqNo: int,
    url: string,
    state: ItemState,
    reason: string,
    actorId: string,
    organizationId: string,
    idempotencyKey: string,
    operationId: string
  )

  const QUEUE_FORMAT := "listingkit.1688.batch-queue/v1"

  datatype Queue = Queue(
    format: string,
    batchId: string,
    actorId: string,
    organizationId: string,
    scopeApproved: bool,
    items: seq<Item>
  ) {
    /** Nothing was submitted in these states, so the item may be captured once more. */
    static predicate CanRecapture(state: ItemState) {
      state.Queued? || state.Capturing? || state.Captured?
    }

    static predicate RequiresHumanReview(state: ItemState) {
      state.Submitting? || state.OutcomeUnknown?
    }

    predicate ScopeMatches(actor: string, organization: string) {
      scopeApproved && actorId == actor && organizationId == organization
    }

    /** `Validate`: the same test guards loading and saving. */
    predicate Consistent() {
      && format == QUEUE_FORMAT
      && (if scopeApproved then actorId != "" && organizationId != "" else actorId == "" && organizationId == "")
      && (forall i | 0 <= i < |items| :: items[i].url != "" && !items[i].state.Unrecognised?)
      && (forall i, j | 0 <= i < j < |items| :: items[i].seqNo != items[j].seqNo)
      && (scopeApproved ==>
            forall i | 0 <= i < |items| && items[i].state.Submitting? ::
              items[i].actorId == actorId && items[i].organizationId == organizationId)
    }

    function WithItem(i: nat, item: Item): Queue
      requires i < |items|
    {
      this.(items := items[i := item])
    }

    function WithState(i: nat, state: ItemState, reason: string): Queue
      requires i < |items|
    {
      WithItem(i, items[i].(state := state, reason := reason))
    }

    predicate HasUrl(url: string) {
      exists i | 0 <= i < |items| :: items[i].url == url
    }
  }

  function NewQueue(batchId: string): Queue {
    Queue(QUEUE_FORMAT, batchId, "", "", false, [])
  }

  function NewItem(seqNo: int, url: string): Item {
    Item(seqNo, url, Queued, "", "", "", "", "")
  }

  /** `ApproveScope`: bind the batch and every item to the confirmed identity. */
  method ApproveScope(queue: Queue, actor: string, organization: string) returns (approved: Option<Queue>)
    ensures approved.None? <==> actor == "" || organization == ""
    ensures approved.Some? ==>
              && approved.value.ScopeMatches(actor, organization)
              && |approved.value.items| == |queue.items|
              && approved.value.format == queue.format && approved.value.batchId == queue.batchId
              && forall i | 0 <= i < |queue.items| ::
                   approved.value.items[i] == queue.items[i].(actorId := actor, organizationId := organization)
  {
    if actor == "" || organization == "" {
      return None;
    }
    var items := queue.items;
    for i := 0 to |items|
      invariant |items| == |queue.items|
      invariant forall k | 0 <= k < i :: items[k] == queue.items[k].(actorId := actor, organizationId := organization)
      invariant forall k | i <= k < |items| :: items[k] == queue.items[k]
    {
      items := items[i := items[i].(actorId := actor, organizationId := organization)];
    }
    return Some(queue.(actorId := actor, organizationId := organization, scopeApproved := true, items := items));
  }

  /** `BlockingItem`: the first item a person has to look at. */
  method BlockingItem(queue: Queue) returns (found: Option<nat>)
    ensures found.None? ==> forall i | 0 <= i < |queue.items| :: !Queue.RequiresHumanReview(queue.items[i].state)
    ensures found.Some? ==> found.value < |queue.items| && Queue.RequiresHumanReview(queue.items[found.value].state)
    ensures found.Some? ==> forall i | 0 <= i < found.value :: !Queue.RequiresHumanReview(queue.items[i].state)
  {
    for i := 0 to |queue.items|
      invariant forall k | 0 <= k < i :: !Queue.RequiresHumanReview(queue.items[k].state)
    {
      if Queue.RequiresHumanReview(queue.items[i].state) {
        return Some(i);
      }
    }
    return None;
  }

  /** The item `ImportOne` works on: the first one that may still be captured. */
  method FirstCapturable(queue: Queue) returns (found: Option<nat>)
    ensures found.None? ==> forall i | 0 <= i < |queue.items| :: !Queue.CanRecapture(queue.items[i].state)
    ensures found.Some? ==> found.value < |queue.items| && Queue.CanRecapture(queue.items[found.value].state)
    ensures found.Some? ==> forall i | 0 <= i < found.value :: !Queue.CanRecapture(queue.items[i].state)
  {
    for i := 0 to |queue.items|
      invariant forall k | 0 <= k < i :: !Queue.CanRecapture(queue.items[k].state)
    {
      if Queue.CanRecapture(queue.items[i].state) {
        return Some(i);
      }
    }
    return None;
  }

  /** A sequence number above every one in use. */
  method NextSeq(items: seq<Item>) returns (next: int)
    ensures next >= 1
    ensures forall i | 0 <= i < |items| :: items[i].seqNo < next
  {
    next := 1;
    for i := 0 to |items|
      invariant next >= 1
      invariant forall k | 0 <= k < i :: items[k].seqNo < next
    {
      if items[i].seqNo >= next {
        next := items[i].seqNo + 1;
      }
    }
  }

  /** Every known state is capturable, waits for a person, or is settled, and only one of these. */
  lemma StatesDivide(state: ItemState)
    requires !state.Unrecognised?
    ensures Queue.CanRecapture(state) <==>
            !Queue.RequiresHumanReview(state) && state != Submitted && state != ItemFailed
    ensures Queue.RequiresHumanReview(state) ==> state != Submitted && state != ItemFailed
    ensures Queue.RequiresHumanReview(Submitting) && Queue.RequiresHumanReview(OutcomeUnknown)
  {
  }

  /** In a consistent queue a sequence number names one item, with a link and a state one can act on, and what is being
      submitted belongs to the queue's identity. */
  lemma ConsistentMeans(queue: Queue, i: nat, j: nat)
    requires queue.Consistent() && i < |queue.items| && j < |queue.items|
    ensures queue.items[i].seqNo == queue.items[j].seqNo ==> i == j
    ensures queue.items[i].url != "" && !queue.items[i].state.Unrecognised?
    ensures queue.format == "listingkit.1688.batch-queue/v1"
    ensures queue.scopeApproved <==> queue.actorId != "" && queue.organizationId != ""
    ensures !queue.scopeApproved ==> queue.actorId == "" && queue.organizationId == ""
    ensures queue.scopeApproved && queue.items[i].state == Submitting ==>
              queue.items[i].actorId == queue.actorId && queue.items[i].organizationId == queue.organizationId
  {
  }

  /** What keeps a queue consistent when one item is rewritten. */
  lemma ConsistentAfterUpdate(queue: Queue, i: nat, item: Item)
    requires queue.Consistent() && i < |queue.items|
    requires item.seqNo == queue.items[i].seqNo && item.url == queue.items[i].url && !item.state.Unrecognised?
    requires queue.scopeApproved && item.state.Submitting? ==>
               item.actorId == queue.actorId && item.organizationId == queue.organizationId
    ensures queue.WithItem(i, item).Consistent()
  {
    var updated := queue.WithItem(i, item);
    assert forall k | 0 <= k < |updated.items| && k != i :: updated.items[k] == queue.items[k];
    assert forall k | 0 <= k < |updated.items| :: updated.items[k].seqNo == queue.items[k].seqNo;
  }

  lemma ConsistentAfterAppend(queue: Queue, item: Item)
    requires queue.Consistent() && item.url != "" && item.state.Queued?
    requires forall k | 0 <= k < |queue.items| :: queue.items[k].seqNo < item.seqNo
    ensures queue.(items := queue.items + [item]).Consistent()
  {
  }

  lemma ConsistentAfterApproval(queue: Queue, approved: Queue, actor: string, organization: string)
    requires queue.Consistent() && actor != "" && organization != "" && approved.ScopeMatches(actor, organization)
    requires |approved.items| == |queue.items| && approved.format == queue.format
    requires forall k | 0 <= k < |queue.items| ::
               approved.items[k] == queue.items[k].(actorId := actor, organizationId := organization)
    ensures approved.Consistent()
  {
    assert forall k | 0 <= k < |queue.items| :: approved.items[k].seqNo == queue.items[k].seqNo;
  }

  // ----- what a queue offers -----

  /** No link is offered for capture by two items. */
  predicate OffersOnce(queue: Queue) {
    forall i, j | 0 <= i < j < |queue.items| && Queue.CanRecapture(queue.items[i].state) &&
      Queue.CanRecapture(queue.items[j].state) ::
      queue.items[i].url != queue.items[j].url
  }

  predicate Offered(queue: Queue, url: string) {
    exists i | 0 <= i < |queue.items| :: Queue.CanRecapture(queue.items[i].state) && queue.items[i].url == url
  }

  /** No run gets past this queue: it cannot be loaded, or an item in it waits for a person. */
  predicate Stuck(queue: Queue) {
    !queue.Consistent() || exists i | 0 <= i < |queue.items| :: Queue.RequiresHumanReview(queue.items[i].state)
  }

  /** Once this item is submitted, the next run goes on and is offered its link again. */
  predicate OfferedAgain(queue: Queue, i: nat)
    requires i < |queue.items|
  {
    && Queue.CanRecapture(queue.items[i].state)
    && !Stuck(queue.WithState(i, Submitted, "")) && Offered(queue.WithState(i, Submitted, ""), queue.items[i].url)
  }

  lemma StuckAfterSubmission(queue: Queue, i: nat)
    requires i < |queue.items| && Queue.CanRecapture(queue.items[i].state)
    ensures Stuck(queue.WithState(i, Submitted, "")) ==> Stuck(queue)
  {
    var after := queue.WithState(i, Submitted, "");
    assert forall k | 0 <= k < |after.items| && k != i :: after.items[k] == queue.items[k];
    assert after.items[i] == queue.items[i].(state := Submitted, reason := "");
    if !Stuck(queue) {
      assert forall k | 0 <= k < |after.items| :: after.items[k].seqNo == queue.items[k].seqNo;
    }
  }

  /** Two capturable items of one link: the failing family. */
  lemma SharedLinkIsOfferedAgain(queue: Queue, i: nat, j: nat)
    requires i < |queue.items| && j < |queue.items| && i != j && queue.items[i].url == queue.items[j].url
    requires Queue.CanRecapture(queue.items[i].state) && Queue.CanRecapture(queue.items[j].state)
    requires !Stuck(queue)
    ensures OfferedAgain(queue, i)
  {
    StuckAfterSubmission(queue, i);
    assert queue.WithState(i, Submitted, "").items[j] == queue.items[j];
  }

  /** A queue is stuck or offers no link twice exactly if no link of it is offered again after its submission, or
      nothing can be submitted from it at all. */
  lemma OffersOnceExactly(queue: Queue)
    ensures Stuck(queue) || OffersOnce(queue) <==>
            Stuck(queue) || forall i | 0 <= i < |queue.items| :: !OfferedAgain(queue, i)
  {
    if !Stuck(queue) && !OffersOnce(queue) {
      var i, j :| 0 <= i < j < |queue.items| && Queue.CanRecapture(queue.items[i].state) &&
        Queue.CanRecapture(queue.items[j].state) && queue.items[i].url == queue.items[j].url;
      SharedLinkIsOfferedAgain(queue, i, j);
    }
    if OffersOnce(queue) {
      forall i | 0 <= i < |queue.items|
        ensures !OfferedAgain(queue, i)
      {
        var after := queue.WithState(i, Submitted, "");
        assert forall j | 0 <= j < |after.items| && j != i :: after.items[j] == queue.items[j];
        assert !Queue.CanRecapture(after.items[i].state);
      }
    }
  }
}
