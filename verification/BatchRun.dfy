/** Whole runs of the batch command, one after another, with any failure and any crash in between. */
module BatchRun {
  import opened Optional
  import opened QueueFile
  import opened QueueStore
  import OfferUrl
  import opened BatchImport

  datatype Config = Config(sourceUrl: string, batchId: string, scope: Scope)

  /** The error `Save` returns unwrapped. */
  function SaveError(r: SaveResult): Error {
    Error({if r == Refused then QueueCorrupt else if r == Unrestored then ContentUnrestored else OtherFailure})
  }

  ghost predicate IsLinkOf(url: string, id: string) {
    OfferUrl.IsOfferId(id) && url == OfferUrl.Canonical(id)
  }

  /** Every canonical link may come to the application. */
  ghost predicate AdmitsOffers(app: Application) {
    forall id | OfferUrl.IsOfferId(id) :: OfferUrl.Canonical(id) in app.links
  }

  ghost predicate IsLink(url: string) {
    exists id :: IsLinkOf(url, id)
  }

  /** The links are canonical, and no two of them are of one offer. */
  ghost predicate DifferentOffers(urls: seq<string>) {
    && (forall i | 0 <= i < |urls| :: IsLink(urls[i]))
    && (forall i, j, id | 0 <= i < j < |urls| && IsLinkOf(urls[i], id) :: !IsLinkOf(urls[j], id))
  }

  ghost function StoredOr(content: Content, batchId: string): Queue {
    if content.Stored? then content.queue else NewQueue(batchId)
  }

  ghost predicate Extends(longer: Queue, queue: Queue, url: string) {
    && longer == queue.(items := longer.items) && |longer.items| == |queue.items| + 1
    && longer.items[..|queue.items|] == queue.items
    && longer.items[|queue.items|] == NewItem(longer.items[|queue.items|].seqNo, url)
  }

  ghost predicate Usable(content: Content, scope: Scope) {
    content.Absent? ||
    (content.Stored? && content.queue.Consistent() &&
      (content.queue.scopeApproved ==> content.queue.ScopeMatches(scope.actor, scope.organization)))
  }

  /** `ensureQueue`: create the queue, or add the canonical link unless it is already recorded. */
  method EnsureQueue(disk: Disk, app: Application, cfg: Config) returns (report: Report)
    requires Safe(disk, app) && AdmitsOffers(app)
    modifies disk
    ensures Safe(disk, app)
    ensures report.Finished? && report.error.NoError? ==>
              disk.visible.Stored? && OfferUrl.Normalize(cfg.sourceUrl).Some? &&
              disk.visible.queue.HasUrl(OfferUrl.Normalize(cfg.sourceUrl).value)
    // It succeeds only on a file that is missing, or consistent and of this identity or none.
    ensures report.Finished? && report.error.NoError? ==> Usable(old(disk.visible), cfg.scope)
    // It changes nothing but the end of the list.
    ensures report.Finished? && report.error.NoError? && disk.visible != old(disk.visible) ==>
              Extends(disk.visible.queue, StoredOr(old(disk.visible), cfg.batchId),
                OfferUrl.Normalize(cfg.sourceUrl).value)
    // Without a fault it succeeds for every offer, unless the file belongs to another identity or cannot be trusted.
    ensures disk.faultless && OfferUrl.Normalize(cfg.sourceUrl).Some? && Usable(old(disk.visible), cfg.scope) ==>
              report.Finished? && report.error.NoError?
  {
    var url := OfferUrl.Normalize(cfg.sourceUrl);
    if url.None? {
      return Finished(EMPTY_RESULT, Error({OtherFailure}));
    }
    var loaded := disk.Load();
    if loaded.Corrupt? {
      return Finished(EMPTY_RESULT, Error({QueueCorrupt}));
    }
    var queue := if loaded.Loaded? then loaded.queue else NewQueue(cfg.batchId);
    assert Protects(Stored(queue), app.links, app.received) by {
      if loaded.Missing? {
        assert Protects(Absent, app.links, app.received);
      }
    }
    if queue.scopeApproved && !queue.ScopeMatches(cfg.scope.actor, cfg.scope.organization) {
      return Finished(EMPTY_RESULT, Error({OtherFailure}));
    }
    if queue.HasUrl(url.value) {
      return Finished(EMPTY_RESULT, NoError);
    }
    ghost var id, _, _ := OfferUrl.OnlySpellings(cfg.sourceUrl);
    assert url.value in app.links;
    var next := NextSeq(queue.items);
    var item := NewItem(next, url.value);
    var longer := queue.(items := queue.items + [item]);
    ProtectsAfterAppend(queue, item, app.links, app.received);
    ConsistentAfterAppend(queue, item);
    var saved := Persist(disk, app, longer);
    assert longer.items[|queue.items|] == item;
    report := if saved == Lost then Interrupted
              else Finished(EMPTY_RESULT, if saved == Saved then NoError else SaveError(saved));
  }

  /** `repeatWhileGateNeedsAHuman`: the same item again, as often as a person says the gate is cleared. */
  method RepeatWhileGateNeedsAHuman(disk: Disk, app: Application, opts: Options, yesses: nat) returns (report: Report)
    requires Safe(disk, app)
    modifies disk, app
    ensures Safe(disk, app)
    ensures old(app.received) <= app.received && |app.received| <= |old(app.received)| + 1
    ensures Accountable(report, app.received != old(app.received))
    ensures report.Finished? && report.error.NoError? ==> Recorded(disk, report.result)
  {
    var left := yesses;
    while true
      invariant Safe(disk, app)
      invariant app.received == old(app.received)
      decreases left
    {
      var session: Session := *;
      report := ImportOne(disk, app, opts, session);
      if !NeedsVisibleSession(report) || left == 0 {
        return;
      }
      left := left - 1;
    }
  }

  /** One invocation of the command. */
  method RunCommand(disk: Disk, app: Application, cfg: Config, yesses: nat) returns (report: Report)
    requires Safe(disk, app) && AdmitsOffers(app)
    modifies disk, app
    ensures Safe(disk, app)
    ensures old(app.received) <= app.received && |app.received| <= |old(app.received)| + 1
    ensures Accountable(report, app.received != old(app.received))
    ensures report.Finished? && report.error.NoError? ==> Recorded(disk, report.result)
  {
    report := EnsureQueue(disk, app, cfg);
    if report.Interrupted? || report.error.Error? {
      return;
    }
    var launched: bool := *;
    if !launched {
      return Finished(EMPTY_RESULT, Error({OtherFailure}));
    }
    report := RepeatWhileGateNeedsAHuman(disk, app, Options(cfg.scope, true), yesses);
  }

  /** For every sequence of invocations, with every failure, and with power loss during any of them and after any of
      them: each link is handed off at most once. A queue already on the disk must be stuck or offer no link twice;
      `QueueFile.OffersOnceExactly` shows that this is exactly what it takes. If its links are canonical, then no two
      handoffs are of one offer. */
  method RunAll(disk: Disk, app: Application, runs: seq<Config>)
    requires disk.Valid() && app.received == [] && AdmitsOffers(app)
    requires forall content | content in disk.Possible() && content.Stored? ::
               Stuck(content.queue) || (OffersOnce(content.queue) && LinksAmong(content.queue, app.links))
    modifies disk, app
    ensures NoRepeats(app.received) && |app.received| <= |runs|
    ensures forall url | url in app.received :: url in app.links
    ensures (forall url | url in app.links :: IsLink(url)) ==> DifferentOffers(app.received)
  {
    for k := 0 to |runs|
      invariant Safe(disk, app) && |app.received| <= k
    {
      var yesses: int := *;
      var _ := RunCommand(disk, app, runs[k], if yesses < 0 then 0 else yesses);
      disk.Interrupt();
    }
    if forall url | url in app.links :: IsLink(url) {
      OneHandoffPerOffer(app.links, app.received);
    }
  }

  lemma OneHandoffPerOffer(links: iset<string>, received: seq<string>)
    requires NoRepeats(received) && forall url | url in received :: url in links
    requires forall url | url in links :: IsLink(url)
    ensures DifferentOffers(received)
  {
    assert forall i | 0 <= i < |received| :: received[i] in received;
    assert forall i | 0 <= i < |received| :: IsLink(received[i]);
    forall i, j, id | 0 <= i < j < |received| && IsLinkOf(received[i], id)
      ensures !IsLinkOf(received[j], id)
    {
      assert received[i] != received[j];
    }
  }

  /** Two spellings of one offer never stand behind two handoffs. */
  lemma SpellingsShareAHandoff(received: seq<string>, i: nat, j: nat, id: string,
                               raw1: string, port1: string, tail1: string, raw2: string, port2: string, tail2: string)
    requires DifferentOffers(received) && i < |received| && j < |received|
    requires OfferUrl.Spells(raw1, id, port1, tail1) && OfferUrl.Normalize(raw1) == Some(received[i])
    requires OfferUrl.Spells(raw2, id, port2, tail2) && OfferUrl.Normalize(raw2) == Some(received[j])
    ensures i == j
  {
    OfferUrl.SpellingsNormalize(raw1, id, port1, tail1);
    OfferUrl.SpellingsNormalize(raw2, id, port2, tail2);
    assert IsLinkOf(received[i], id) && IsLinkOf(received[j], id);
  }
}
