/** What is recorded about a merchant application: the stored progress of each revision, every claim that was ever
    made on it, and the order in which the channel was asked to submit. Each step of the protocol is a function
    on these books, and keeps their laws. */
module MerchantHistory {

  import opened Optional
  import opened MerchantRevision

  /** An answer of the channel that was stored: bound to the attempt it was asked for. */
  datatype Answer = Answer(attempt: Attempt, bound: Observation)

  datatype Progress = Progress(
    token: nat, dispatched: bool, state: string, observed: bool, channel: string, acceptance: Option<Acceptance>,
    media: set<string>
  ) {
    /** What the writes other than a dispatch record and an observation may do: media may be added, an acceptance saved
        once the revision is dispatched, the claim released. */
    predicate MayBecome(next: Progress, revision: Attempt) {
      && next.dispatched == dispatched && next.state == state && next.observed == observed && next.channel == channel
      && (next.token == token || next.token == 0)
      && (next.acceptance == acceptance || (next.acceptance.Some? && MayAccept(next.acceptance.value, revision)))
      && media <= next.media
    }

    /** `SaveMerchantAcceptance`: the acceptance is of this revision and of the application observed so far. */
    predicate MayAccept(proof: Acceptance, revision: Attempt) {
      && dispatched && acceptance.None? && AcceptanceMatches(proof, revision)
      && (channel == "" || channel == proof.channelApplicationId)
    }

    /** `ObserveMerchant`: a matching answer in a known state, about the accepted submit where there is one, and about
        the channel application observed so far. */
    predicate MayStore(answer: Answer, revision: Attempt) {
      && Matches(answer.bound, answer.attempt) && answer.attempt == revision.(acceptance := answer.attempt.acceptance)
      && answer.bound.channelApplicationId != "" && |answer.bound.channelApplicationId| <= 32
      && answer.bound.state in {"CHECKING", "ACCOUNT_NEED_VERIFY", "AUDITING", "REJECTED", "NEED_SIGN", "FINISH",
        "FROZEN",
                                "CANCELED"}
      && dispatched
      && (revision.version > 1 || acceptance.Some? ==> acceptance.Some? && answer.attempt.acceptance == acceptance)
      && (channel == "" || channel == answer.bound.channelApplicationId)
    }

    function Observed(answer: Answer): Progress {
      this.(state := answer.bound.state, observed := true, channel := answer.bound.channelApplicationId)
    }

    /** The answer stands behind the stored state. */
    predicate BackedBy(answer: Answer, revision: Attempt) {
      && Matches(answer.bound, answer.attempt) && answer.attempt == revision.(acceptance := answer.attempt.acceptance)
      && answer.bound.state == state && answer.bound.channelApplicationId == channel
    }

    /** What a stored revision owes to its history. */
    predicate Founded(revision: Attempt, current: int) {
      && (acceptance.Some? ==> dispatched && AcceptanceMatches(acceptance.value, revision))
      && (acceptance.Some? && channel != "" ==> channel == acceptance.value.channelApplicationId)
      && (observed ==> dispatched && (revision.version > 1 ==> acceptance.Some?))
      && (state != "PREPARING" ==> observed)
      && (revision.version < current ==> state == "REJECTED" && observed && dispatched)
    }
  }

  /** One claim: what its holder saw when claiming, and what it has done since. */
  datatype Claim = Claim(
    version: int, dispatched: bool, state: string, observed: bool, acceptance: Option<Acceptance>, media: set<string>,
    notFound: bool, marked: bool, repeated: bool, submitted: bool
  ) {
    /** When the program lets a holder record a dispatch. */
    predicate MayMark() {
      !dispatched || FollowsAbsence()
    }

    /** A submit follows a dispatch record, which is in the revision's progress; a repeated record follows, under
        the same claim, a matching NOT_FOUND for the first revision, preparing and with nothing observed. */
    predicate Lawful(progress: Progress) {
      && (submitted ==> marked)
      && (marked ==> progress.dispatched)
      && (marked && repeated ==> FollowsAbsence())
    }

    /** The holder was told that the first revision, preparing, unobserved and not accepted, is unknown to the
        channel. */
    predicate FollowsAbsence() {
      version == 1 && notFound && state == "PREPARING" && !observed && acceptance.None?
    }

    /** The holder of the current token knows whether the revision was dispatched, unless it did so itself. */
    predicate Informed(progress: Progress) {
      marked || dispatched == progress.dispatched
    }

    /** Of two dispatch records for one revision, one was a repeat. */
    predicate Compatible(other: Claim) {
      marked && other.marked && version == other.version ==> repeated || other.repeated
    }
  }

  const FRESH_PROGRESS := Progress(0, false, "PREPARING", false, "", None, {})

  /** The claim of a holder that has just read this progress. */
  function Seen(version: int, p: Progress): Claim {
    Claim(version, p.dispatched, p.state, p.observed, p.acceptance, p.media, false, false, false, false)
  }

  /** The immutable details of each revision, without an acceptance. */
  type Revisions = int -> Attempt

  ghost predicate Numbered(revisions: Revisions) {
    forall v :: revisions(v).version == v && revisions(v).revisionId != "" && revisions(v).acceptance.None?
  }

  /** The revisions `1..current` exist; only the last one can be claimed. Token 0 is no claim. `submits` holds the
      tokens under which the channel was asked to submit, in that order. */
  datatype Book = Book(
    current: int, progress: map<int, Progress>, claims: map<nat, Claim>, nextToken: nat, submits: seq<nat>,
    answers: seq<Answer>
  ) {
    ghost predicate Lists() {
      1 <= current && 1 <= nextToken && forall v :: v in progress <==> 1 <= v <= current
    }

    ghost predicate ClaimsLawful() {
      forall t | t in claims :: 0 < t < nextToken && claims[t].version in progress &&
        claims[t].Lawful(progress[claims[t].version])
    }

    ghost predicate HoldersInformed() {
      forall v | v in progress && progress[v].token != 0 ::
        progress[v].token in claims && claims[progress[v].token].version == v &&
          claims[progress[v].token].Informed(progress[v])
    }

    /** While the claim that dispatched a revision first is still held, no other claim has dispatched it. */
    ghost predicate FirstIsAlone() {
      forall v, t | v in progress && progress[v].token in claims && t in claims && t != progress[v].token &&
        claims[t].version == v ::
        claims[progress[v].token].marked && !claims[progress[v].token].repeated ==> !claims[t].marked
    }

    ghost predicate PairsCompatible() {
      forall t, u | t in claims && u in claims && t != u :: claims[t].Compatible(claims[u])
    }

    /** A later revision exists only behind a stored rejection of the one before; an observation of a corrected
        revision only behind its own acceptance, and that only behind a dispatch. */
    ghost predicate RevisionsFounded(revisions: Revisions) {
      forall v | v in progress :: progress[v].Founded(revisions(v), current)
    }

    /** A state other than the first is that of a stored answer, and all answers about a revision are about one channel
        application. */
    ghost predicate StatesBacked(revisions: Revisions) {
      && (forall v | v in progress && progress[v].state != "PREPARING" ::
            exists k | 0 <= k < |answers| :: progress[v].BackedBy(answers[k], revisions(v)))
      && (forall k | 0 <= k < |answers| ::
            && answers[k].attempt.version in progress
            && answers[k].bound.channelApplicationId == progress[answers[k].attempt.version].channel
            && (answers[k].attempt.version > 1 ==>
                  answers[k].attempt.acceptance.Some? &&
                  answers[k].attempt.acceptance == progress[answers[k].attempt.version].acceptance))
    }

    /** Stored answers name an application and a state that the program knows. */
    ghost predicate AnswersKnown() {
      forall k | 0 <= k < |answers| ::
        && 1 <= |answers[k].bound.channelApplicationId| <= 32
        && answers[k].bound.state in {"CHECKING", "ACCOUNT_NEED_VERIFY", "AUDITING", "REJECTED", "NEED_SIGN", "FINISH",
                                      "FROZEN", "CANCELED"}
    }

    /** Each claim submits at most once, and the log holds exactly those that did. */
    ghost predicate Logged() {
      && (forall t :: t in submits <==> t in claims && claims[t].submitted)
      && (forall i, j | 0 <= i < j < |submits| :: submits[i] != submits[j])
    }

    ghost predicate Valid(revisions: Revisions) {
      && Numbered(revisions) && Lists() && ClaimsLawful() && HoldersInformed() && FirstIsAlone() && PairsCompatible()
      && RevisionsFounded(revisions) && StatesBacked(revisions) && AnswersKnown() && Logged()
    }

    /** The token holds the claim of the current revision. */
    predicate Holds(token: nat) {
      token in claims && current in progress && claims[token].version == current && progress[current].token == token
    }

    function WithClaim(token: nat, claim: Claim): Book {
      this.(claims := claims[token := claim])
    }

    function WithProgress(p: Progress): Book {
      this.(progress := progress[current := p])
    }
  }

  const FIRST := Book(1, map[1 := FRESH_PROGRESS], map[], 1, [], [])

  // ----- the steps -----

  function Claimed(b: Book): Book
    requires b.current in b.progress
  {
    var p := b.progress[b.current];
    b.WithClaim(b.nextToken, Seen(b.current, p)).WithProgress(p.(token := b.nextToken)).(nextToken := b.nextToken + 1)
  }

  function Marked(b: Book, token: nat): Book
    requires token in b.claims && b.current in b.progress
  {
    var p := b.progress[b.current];
    b.WithClaim(token, b.claims[token].(marked := true, repeated := p.dispatched)).WithProgress(p.(dispatched := true))
  }

  function Submitted(b: Book, token: nat): Book
    requires token in b.claims
  {
    b.WithClaim(token, b.claims[token].(submitted := true)).(submits := b.submits + [token])
  }

  function Noted(b: Book, token: nat): Book
    requires token in b.claims
  {
    b.WithClaim(token, b.claims[token].(notFound := true))
  }

  function Answered(b: Book, answer: Answer): Book
    requires b.current in b.progress
  {
    b.WithProgress(b.progress[b.current].Observed(answer)).(answers := b.answers + [answer])
  }

  function Corrected(b: Book): Book {
    b.(current := b.current + 1, progress := b.progress[b.current + 1 := FRESH_PROGRESS])
  }

  // ----- they keep the laws -----

  lemma FirstIsValid(revisions: Revisions)
    requires Numbered(revisions)
    ensures FIRST.Valid(revisions)
  {
  }

  /** Writing neither state nor channel leaves the answers behind what is stored. */
  lemma BackedStays(b: Book, next: Progress, revisions: Revisions)
    requires b.StatesBacked(revisions) && b.current in b.progress
    requires next.state == b.progress[b.current].state && next.channel == b.progress[b.current].channel
    requires b.progress[b.current].acceptance.Some? ==> next.acceptance == b.progress[b.current].acceptance
    ensures b.WithProgress(next).StatesBacked(revisions)
  {
    hide Matches;
    var after := b.WithProgress(next);
    forall v | v in after.progress && after.progress[v].state != "PREPARING"
      ensures exists k | 0 <= k < |after.answers| :: after.progress[v].BackedBy(after.answers[k], revisions(v))
    {
      var k :| 0 <= k < |b.answers| && b.progress[v].BackedBy(b.answers[k], revisions(v));
      assert after.progress[v].BackedBy(after.answers[k], revisions(v));
    }
  }

  /** The claims have no part in it. */
  lemma BackedAnyway(b: Book, after: Book, revisions: Revisions)
    requires b.StatesBacked(revisions) && after.progress == b.progress && after.answers == b.answers
    ensures after.StatesBacked(revisions)
  {
    hide Matches, Progress.BackedBy;
  }

  lemma ClaimedIsValid(b: Book, revisions: Revisions)
    requires b.Valid(revisions)
    ensures Claimed(b).Valid(revisions)
  {
    ClaimedLawful(b);
    ClaimedInformed(b);
    ClaimedPairs(b);
    ClaimedFounded(b, revisions);
    ClaimedLogged(b);
    ClaimedAlone(b);
    var p := b.progress[b.current].(token := b.nextToken);
    BackedStays(b, p, revisions);
    BackedAnyway(b.WithProgress(p), Claimed(b), revisions);
    hide Book.ClaimsLawful, Book.HoldersInformed, Book.FirstIsAlone, Book.PairsCompatible, Book.RevisionsFounded,
      Book.StatesBacked, Book.Logged;
  }

  lemma NextTokenIsNew(b: Book, revisions: Revisions)
    requires b.Valid(revisions)
    ensures b.nextToken !in b.claims && b.nextToken != 0 && b.current in b.progress
  {
    hide Book.HoldersInformed, Book.FirstIsAlone, Book.PairsCompatible, Book.RevisionsFounded, Book.StatesBacked,
      Book.Logged;
  }

  lemma ClaimedLawful(b: Book)
    requires b.Lists() && b.ClaimsLawful()
    ensures Claimed(b).ClaimsLawful()
  {
  }

  lemma ClaimedInformed(b: Book)
    requires b.Lists() && b.ClaimsLawful() && b.HoldersInformed()
    ensures Claimed(b).HoldersInformed()
  {
  }

  lemma ClaimedPairs(b: Book)
    requires b.current in b.progress && b.PairsCompatible()
    ensures Claimed(b).PairsCompatible()
  {
  }

  lemma ClaimedAlone(b: Book)
    requires b.current in b.progress && b.FirstIsAlone() && b.ClaimsLawful()
    ensures Claimed(b).FirstIsAlone()
  {
    hide Claim.Lawful;
  }

  lemma ClaimedFounded(b: Book, revisions: Revisions)
    requires b.current in b.progress && b.RevisionsFounded(revisions)
    ensures Claimed(b).RevisionsFounded(revisions)
  {
    hide AcceptanceMatches;
  }

  lemma ClaimedLogged(b: Book)
    requires b.current in b.progress && b.ClaimsLawful() && b.Logged()
    ensures Claimed(b).Logged()
  {
    assert b.nextToken !in b.claims;
  }

  /** A dispatch record breaks no claim's law: if the revision was dispatched before, the holder saw that. */
  lemma MarkedIsValid(b: Book, token: nat, revisions: Revisions)
    requires b.Valid(revisions) && b.Holds(token)
    requires b.claims[token].MayMark() && !b.claims[token].marked && !b.claims[token].submitted
    ensures Marked(b, token).Valid(revisions)
  {
    MarkedLawful(b, token);
    MarkedPairs(b, token);
    MarkedAlone(b, token);
    MarkedFounded(b, revisions, token);
    var p := b.progress[b.current].(dispatched := true);
    BackedStays(b, p, revisions);
    BackedAnyway(b.WithProgress(p), Marked(b, token), revisions);
    MarkedInformed(b, token);
    MarkedLogged(b, token);
    hide Book.ClaimsLawful, Book.HoldersInformed, Book.FirstIsAlone, Book.PairsCompatible, Book.RevisionsFounded,
      Book.StatesBacked, Book.AnswersKnown, Book.Logged, Progress.MayBecome, Claim.MayMark;
  }

  lemma MarkedLawful(b: Book, token: nat)
    requires b.ClaimsLawful() && b.HoldersInformed() && b.Lists() && b.Holds(token)
    requires b.claims[token].MayMark() && !b.claims[token].marked && !b.claims[token].submitted
    ensures Marked(b, token).ClaimsLawful()
  {
    assert b.claims[token].Informed(b.progress[b.current]);
  }

  lemma MarkedInformed(b: Book, token: nat)
    requires b.HoldersInformed() && b.Holds(token)
    ensures Marked(b, token).HoldersInformed()
  {
  }

  lemma MarkedLogged(b: Book, token: nat)
    requires b.Logged() && b.Holds(token)
    ensures Marked(b, token).Logged()
  {
  }

  lemma MarkedPairs(b: Book, token: nat)
    requires b.ClaimsLawful() && b.PairsCompatible() && b.Holds(token)
    ensures Marked(b, token).PairsCompatible()
  {
    assert forall u | u in b.claims && b.claims[u].marked && b.claims[u].version == b.current ::
      b.progress[b.current].dispatched;
  }

  lemma MarkedAlone(b: Book, token: nat)
    requires b.ClaimsLawful() && b.HoldersInformed() && b.FirstIsAlone() && b.Lists() && b.Holds(token)
    ensures Marked(b, token).FirstIsAlone()
  {
    hide Claim.Informed;
    assert forall u | u in b.claims && b.claims[u].marked && b.claims[u].version == b.current ::
      b.progress[b.current].dispatched;
  }

  lemma MarkedFounded(b: Book, revisions: Revisions, token: nat)
    requires b.RevisionsFounded(revisions) && b.Holds(token)
    ensures Marked(b, token).RevisionsFounded(revisions)
  {
    hide AcceptanceMatches;
  }

  lemma SubmittedIsValid(b: Book, token: nat, revisions: Revisions)
    requires b.Valid(revisions) && token in b.claims && b.claims[token].marked && !b.claims[token].submitted
    ensures Submitted(b, token).Valid(revisions)
  {
    SubmittedLogged(b, token);
    BackedAnyway(b, Submitted(b, token), revisions);
    SubmittedLawful(b, token);
    SubmittedPairs(b, token);
    hide Book.ClaimsLawful, Book.HoldersInformed, Book.FirstIsAlone, Book.PairsCompatible, Book.RevisionsFounded,
      Book.StatesBacked, Book.Logged;
  }

  lemma SubmittedLawful(b: Book, token: nat)
    requires b.ClaimsLawful() && b.HoldersInformed() && token in b.claims && b.claims[token].marked
    ensures Submitted(b, token).ClaimsLawful() && Submitted(b, token).HoldersInformed()
  {
  }

  lemma SubmittedPairs(b: Book, token: nat)
    requires b.PairsCompatible() && b.FirstIsAlone() && token in b.claims
    ensures Submitted(b, token).PairsCompatible() && Submitted(b, token).FirstIsAlone()
  {
  }

  lemma SubmittedLogged(b: Book, token: nat)
    requires b.Logged() && token in b.claims && !b.claims[token].submitted
    ensures Submitted(b, token).Logged()
  {
  }

  lemma NotedIsValid(b: Book, token: nat, revisions: Revisions)
    requires b.Valid(revisions) && token in b.claims
    ensures Noted(b, token).Valid(revisions)
  {
    NotedLawful(b, token);
    NotedPairs(b, token);
    NotedLogged(b, token);
    BackedAnyway(b, Noted(b, token), revisions);
    NotedInformed(b, token);
    hide Book.ClaimsLawful, Book.HoldersInformed, Book.FirstIsAlone, Book.PairsCompatible, Book.RevisionsFounded,
      Book.StatesBacked, Book.Logged;
  }

  lemma NotedLawful(b: Book, token: nat)
    requires b.ClaimsLawful() && token in b.claims
    ensures Noted(b, token).ClaimsLawful()
  {
  }

  lemma NotedInformed(b: Book, token: nat)
    requires b.HoldersInformed() && token in b.claims
    ensures Noted(b, token).HoldersInformed()
  {
  }

  lemma NotedPairs(b: Book, token: nat)
    requires b.PairsCompatible() && b.FirstIsAlone() && token in b.claims
    ensures Noted(b, token).PairsCompatible() && Noted(b, token).FirstIsAlone()
  {
  }

  lemma NotedLogged(b: Book, token: nat)
    requires b.Logged() && token in b.claims
    ensures Noted(b, token).Logged()
  {
  }

  lemma WrittenIsValid(b: Book, next: Progress, revisions: Revisions)
    requires b.Valid(revisions) && b.progress[b.current].MayBecome(next, revisions(b.current))
    ensures b.WithProgress(next).Valid(revisions)
  {
    WrittenFounded(b, next, revisions);
    BackedStays(b, next, revisions);
    WrittenClaims(b, next);
    hide Book.ClaimsLawful, Book.HoldersInformed, Book.FirstIsAlone, Book.PairsCompatible, Book.RevisionsFounded,
      Book.StatesBacked, Book.AnswersKnown, Book.Logged, Progress.MayBecome, Claim.MayMark;
  }

  lemma WrittenClaims(b: Book, next: Progress)
    requires b.Lists() && b.ClaimsLawful() && b.HoldersInformed() && b.FirstIsAlone()
    requires next.dispatched == b.progress[b.current].dispatched
    requires next.token == b.progress[b.current].token || next.token == 0
    ensures var after := b.WithProgress(next);
            after.ClaimsLawful() && after.HoldersInformed() && after.FirstIsAlone()
  {
    hide Claim.FollowsAbsence;
    assert 0 !in b.claims;
  }

  lemma WrittenFounded(b: Book, next: Progress, revisions: Revisions)
    requires Numbered(revisions) && b.RevisionsFounded(revisions) && b.Lists() &&
             b.progress[b.current].MayBecome(next, revisions(b.current))
    ensures b.WithProgress(next).RevisionsFounded(revisions)
  {
    hide AcceptanceMatches;
  }

  lemma CorrectedIsValid(b: Book, revisions: Revisions)
    requires b.Valid(revisions)
    requires b.progress[b.current].state == "REJECTED" && b.progress[b.current].dispatched &&
             b.progress[b.current].observed
    ensures Corrected(b).Valid(revisions)
  {
    CorrectedFounded(b, revisions);
    CorrectedBacked(b, revisions);
    hide AcceptanceMatches, Book.RevisionsFounded, Book.StatesBacked, Progress.Founded;
  }

  lemma CorrectedBacked(b: Book, revisions: Revisions)
    requires b.StatesBacked(revisions) && b.Lists()
    ensures Corrected(b).StatesBacked(revisions)
  {
    hide Matches;
    var after := Corrected(b);
    forall v | v in after.progress && after.progress[v].state != "PREPARING"
      ensures exists k | 0 <= k < |after.answers| :: after.progress[v].BackedBy(after.answers[k], revisions(v))
    {
      var k :| 0 <= k < |b.answers| && b.progress[v].BackedBy(b.answers[k], revisions(v));
      assert after.progress[v].BackedBy(after.answers[k], revisions(v));
    }
  }

  lemma AnsweredIsValid(b: Book, answer: Answer, revisions: Revisions)
    requires b.Valid(revisions) && b.progress[b.current].MayStore(answer, revisions(b.current))
    ensures Answered(b, answer).Valid(revisions)
  {
    AnsweredFounded(b, answer, revisions);
    AnsweredBacked(b, answer, revisions);
    AnsweredLawful(b, answer);
    hide Matches, Book.RevisionsFounded, Book.StatesBacked, Book.ClaimsLawful, Book.HoldersInformed, Book.FirstIsAlone,
      Progress.MayStore;
  }

  lemma AnsweredLawful(b: Book, answer: Answer)
    requires b.Lists() && b.ClaimsLawful() && b.HoldersInformed() && b.FirstIsAlone()
    ensures var after := Answered(b, answer);
            after.ClaimsLawful() && after.HoldersInformed() && after.FirstIsAlone()
  {
    hide Claim.FollowsAbsence;
  }

  lemma AnsweredFounded(b: Book, answer: Answer, revisions: Revisions)
    requires Numbered(revisions) && b.RevisionsFounded(revisions) && b.Lists()
    requires b.progress[b.current].MayStore(answer, revisions(b.current))
    ensures Answered(b, answer).RevisionsFounded(revisions)
  {
    hide AcceptanceMatches;
  }

  lemma AnsweredBacked(b: Book, answer: Answer, revisions: Revisions)
    requires Numbered(revisions) && b.StatesBacked(revisions) && b.Lists() && b.AnswersKnown()
    requires b.progress[b.current].MayStore(answer, revisions(b.current))
    ensures Answered(b, answer).StatesBacked(revisions)
  {
    hide Matches;
    var after := Answered(b, answer);
    assert after.progress[b.current].BackedBy(after.answers[|b.answers|], revisions(b.current));
    forall v | v in after.progress && after.progress[v].state != "PREPARING"
      ensures exists k | 0 <= k < |after.answers| :: after.progress[v].BackedBy(after.answers[k], revisions(v))
    {
      if v != b.current {
        var k :| 0 <= k < |b.answers| && b.progress[v].BackedBy(b.answers[k], revisions(v));
        assert after.progress[v].BackedBy(after.answers[k], revisions(v));
      }
    }
    forall k | 0 <= k < |after.answers|
      ensures after.answers[k].attempt.version in after.progress
      ensures after.answers[k].bound.channelApplicationId == after.progress[after.answers[k].attempt.version].channel
    {
      if k < |b.answers| {
        assert after.answers[k] == b.answers[k];
      }
    }
  }

  lemma CorrectedFounded(b: Book, revisions: Revisions)
    requires Numbered(revisions) && b.RevisionsFounded(revisions) && b.Lists()
    requires b.progress[b.current].state == "REJECTED" && b.progress[b.current].dispatched &&
             b.progress[b.current].observed
    ensures Corrected(b).RevisionsFounded(revisions)
  {
    hide AcceptanceMatches;
  }

  // ----- what a reader of the history finds -----

  /** In the order in which the channel is asked: of any two submits of a revision one is a repeat, made under a claim
      whose holder had been told that the first revision is unknown. So a corrected revision is submitted at most once.
      The repeat need not be the later one (`MerchantOnboarding.Overtaking`). */
  lemma SubmittedOnce(b: Book, revisions: Revisions, i: nat, j: nat)
    requires b.Valid(revisions) && i < j < |b.submits| &&
             b.claims[b.submits[i]].version == b.claims[b.submits[j]].version
    ensures b.claims[b.submits[i]].version == 1
    ensures exists k | k == i || k == j :: b.claims[b.submits[k]].repeated && b.claims[b.submits[k]].FollowsAbsence()
  {
    hide Book.RevisionsFounded, Book.HoldersInformed;
    var t, u := b.submits[i], b.submits[j];
    assert t in b.claims && u in b.claims && t != u;
    assert b.claims[t].Compatible(b.claims[u]);
    assert b.claims[b.submits[if b.claims[t].repeated then i else j]].repeated;
  }

  /** The claims that submitted a revision without verified absence before it. */
  ghost function Unqueried(b: Book, version: int): set<nat> {
    set t | t in b.claims && b.claims[t].submitted && b.claims[t].version == version &&
      !(b.claims[t].repeated && b.claims[t].FollowsAbsence())
  }

  /** There is at most one such claim: the one that found the revision not dispatched. For a corrected revision that is
      every submit there is. */
  lemma UnqueriedOnce(b: Book, revisions: Revisions, version: int)
    requires b.Valid(revisions)
    ensures |Unqueried(b, version)| <= 1
    ensures forall t | t in Unqueried(b, version) :: b.claims[t].marked && !b.claims[t].repeated
    ensures forall t | t in b.submits && b.claims[t].version == version :: t in Unqueried(b, version) <==>
            !b.claims[t].repeated
    ensures version > 1 ==> forall t | t in b.submits && b.claims[t].version == version :: t in Unqueried(b, version)
  {
    hide Book.RevisionsFounded, Book.HoldersInformed;
    var all := Unqueried(b, version);
    assert forall t | t in all :: b.claims[t].Lawful(b.progress[version]);
    if all != {} {
      var t :| t in all;
      assert forall u | u in b.claims && u != t :: b.claims[t].Compatible(b.claims[u]);
      assert all == {t};
    }
  }

  /** If the claim that dispatched a revision first still holds it when it submits, its submit is the first of that
      revision, so every other one follows verified absence in time as well. */
  lemma PromptSubmitIsFirst(b: Book, revisions: Revisions, token: nat)
    requires b.Valid(revisions) && b.Holds(token) && b.claims[token].marked && !b.claims[token].repeated &&
             !b.claims[token].submitted
    ensures forall t | t in b.submits :: b.claims[t].version != b.current
  {
    hide Book.RevisionsFounded, Book.PairsCompatible, Book.HoldersInformed;
    assert forall t | t in b.submits :: b.claims[t].Lawful(b.progress[b.claims[t].version]);
  }

  /** A stored state other than the first is what the channel answered about this very revision. */
  lemma StateIsAnswered(b: Book, revisions: Revisions, v: int) returns (k: nat)
    requires b.Valid(revisions) && v in b.progress && b.progress[v].state != "PREPARING"
    ensures k < |b.answers| && b.answers[k].attempt.version == v && b.answers[k].bound.state == b.progress[v].state
    ensures Matches(b.answers[k].bound, b.answers[k].attempt)
    ensures b.answers[k].attempt == revisions(v).(acceptance := b.answers[k].attempt.acceptance)
  {
    hide Matches;
    k :| 0 <= k < |b.answers| && b.progress[v].BackedBy(b.answers[k], revisions(v));
  }

  /** A new revision exists only behind a channel answer that rejected the one before. */
  lemma CorrectedAfterRejection(b: Book, revisions: Revisions, v: int) returns (k: nat)
    requires b.Valid(revisions) && 1 <= v < b.current
    ensures k < |b.answers| && b.answers[k].attempt.version == v && b.answers[k].bound.state == "REJECTED"
    ensures Matches(b.answers[k].bound, b.answers[k].attempt)
  {
    hide Matches;
    assert b.progress[v].Founded(revisions(v), b.current);
    k := StateIsAnswered(b, revisions, v);
  }

  /** All stored answers about a revision are about one application of the channel. */
  lemma OneChannelApplication(b: Book, revisions: Revisions, i: nat, j: nat)
    requires b.Valid(revisions) && i < |b.answers| && j < |b.answers|
    requires b.answers[i].attempt.version == b.answers[j].attempt.version
    ensures b.answers[i].bound.channelApplicationId == b.answers[j].bound.channelApplicationId != ""
  {
    hide Matches;
  }
}
