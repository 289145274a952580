/** Which channel answers speak about which revision of a merchant application.

    Every revision of an application shares one request number, so the channel's answer to a query does not say
    which revision it is about. A corrected revision is therefore observable only through the acceptance that
    its own submit returned. */
module MerchantRevision {

  import opened Optional
  import opened ServiceOrder

  datatype Profile = Profile(version: string, platformMerchantId: string)

  datatype Acceptance = Acceptance(
    revisionId: string, revisionVersion: int, detailsFingerprint: string, profile: Profile,
    outRequestNo: string, channelApplicationId: string, verificationVersion: string, digest: string
  )

  datatype Attempt = Attempt(
    profile: Profile, outRequestNo: string, revisionId: string, version: int, detailsFingerprint: string,
    acceptance: Option<Acceptance>
  )

  /** The fingerprint of an acceptance is taken to determine it; `None` is the empty text. */
  datatype Observation = Observation(
    profile: Profile, outRequestNo: string, channelApplicationId: string, state: string, verificationVersion: string,
    revisionId: string, revisionVersion: int, acceptance: Option<Acceptance>
  )

  predicate AcceptanceMatches(p: Acceptance, a: Attempt) {
    && p.revisionId == a.revisionId && p.revisionVersion == a.version
    && p.detailsFingerprint == a.detailsFingerprint && p.profile == a.profile && p.outRequestNo == a.outRequestNo
    && ValidText(p.channelApplicationId, 32) && ValidText(p.verificationVersion, 256) && |p.digest| == 64
  }

  predicate CanObserve(a: Attempt) {
    a.version == 1 || (a.acceptance.Some? && AcceptanceMatches(a.acceptance.value, a))
  }

  function BindQuery(a: Attempt, o: Observation): (bound: Observation) {
    var named := o.(revisionId := a.revisionId, revisionVersion := a.version);
    if a.acceptance.Some? then named.(acceptance := a.acceptance) else named
  }

  predicate Matches(o: Observation, a: Attempt) {
    if o.profile != a.profile || o.outRequestNo != a.outRequestNo || !ValidText(o.verificationVersion, 256) then false
    else if a.version == 1 && a.acceptance.None? then true
    else
      && CanObserve(a) && o.revisionId == a.revisionId && o.revisionVersion == a.version
      && a.acceptance.Some? && o.acceptance == a.acceptance
      && o.channelApplicationId == a.acceptance.value.channelApplicationId
  }

  /** What the channel itself has to say for a bound answer to be believed: nothing more than the application's
      number while nothing was accepted, and the accepted channel application from then on. */
  lemma BoundAnswerMatches(a: Attempt, o: Observation)
    ensures Matches(BindQuery(a, o), a) <==>
            && o.profile == a.profile && o.outRequestNo == a.outRequestNo && ValidText(o.verificationVersion, 256)
            && CanObserve(a)
            && (a.acceptance.Some? ==> o.channelApplicationId == a.acceptance.value.channelApplicationId)
  {
    hide ValidText;
    hide AcceptanceMatches;
    if a.acceptance.Some? {
      assert BindQuery(a, o).acceptance == a.acceptance;
    } else {
      assert BindQuery(a, o) == o.(revisionId := a.revisionId, revisionVersion := a.version);
    }
  }

  /** A stored answer is about one accepted submit: it cannot match two attempts of which a later submit changed
      the revision, the details or the channel application. */
  lemma AnswersDoNotCross(o: Observation, a: Attempt, b: Attempt)
    requires Matches(o, a) && Matches(o, b)
    requires a.acceptance.Some? && (a.version > 1 || AcceptanceMatches(a.acceptance.value, a))
    requires b.version > 1
    ensures a == b && AcceptanceMatches(b.acceptance.value, b)
  {
    hide ValidText;
    assert a.version == b.version && a.acceptance == b.acceptance;
    assert AcceptanceMatches(a.acceptance.value, a) && AcceptanceMatches(b.acceptance.value, b);
    assert a.detailsFingerprint == b.detailsFingerprint;
  }

  /** The repeat rule asks the unbound answer to match. While no submit was accepted that is the application's
      number alone; after one, an answer that names no revision is refused. */
  lemma UnboundAbsence(a: Attempt, o: Observation)
    requires o.revisionId == "" && a.revisionId != ""
    ensures Matches(o, a) <==>
            && a.version == 1 && a.acceptance.None?
            && o.profile == a.profile && o.outRequestNo == a.outRequestNo && ValidText(o.verificationVersion, 256)
  {
    hide ValidText;
    assert o.revisionId != a.revisionId;
  }
}
