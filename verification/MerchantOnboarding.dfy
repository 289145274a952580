/** Dispatching a merchant application to the payment channel under a lease.

    Every participant works on the attempt it saw when it claimed. A claim can expire while its holder
    still runs; the repository then refuses the holder's writes because the token has changed. Between any
    two steps of one holder, `Interleave` lets all the others act. */
module MerchantOnboarding {

  import opened Optional
  import opened MerchantRevision
  import opened MerchantHistory

  /** What the others answer during one resume: whether a lease is live, the checks of the program, what the channel
      says to the first query, to the submit, and to the last query. */
  datatype World = World(
    leased: bool, profileHolds: bool, uploads: bool, allowed: bool, qualified: bool, answer: Option<Observation>,
    accepted: Option<Acceptance>, lastAnswer: Option<Observation>, finishable: bool
  )

  /** An answer to this attempt is stored by an undisturbed holder of the claim. */
  ghost predicate Storable(p: Progress, revision: Attempt, attempt: Attempt, answer: Observation, finishable: bool) {
    && answer.state != "NOT_FOUND" && (answer.state == "FINISH" ==> finishable)
    && p.MayStore(Answer(attempt, BindQuery(attempt, answer)), revision)
  }

  ghost function WithMedia(b: Book, media: set<string>): Book
    requires b.current in b.progress
  {
    b.WithProgress(b.progress[b.current].(media := b.progress[b.current].media + media))
  }

  lemma NoMedia(b: Book)
    requires b.current in b.progress
    ensures WithMedia(b, {}) == b
  {
    var p := b.progress[b.current];
    assert p.media + {} == p.media;
    assert b.progress[b.current := p] == b.progress;
  }

  lemma MoreMedia(b: Book, media: set<string>, file: string)
    requires b.current in b.progress
    ensures var once := WithMedia(b, media);
            once.WithProgress(once.progress[once.current].(media := once.progress[once.current].media + {file}))
            == WithMedia(b, media + {file})
  {
    var p := b.progress[b.current];
    assert p.media + media + {file} == p.media + (media + {file});
  }

  ghost predicate RejectedByChannel(b: Book, version: int) {
    exists k | 0 <= k < |b.answers| ::
      b.answers[k].attempt.version == version && b.answers[k].bound.state == "REJECTED" &&
      Matches(b.answers[k].bound, b.answers[k].attempt)
  }

  class Onboarding {
    var book: Book
    const files: set<string>
    const revisions: Revisions
    /** In calm no one else acts and no lease runs out. */
    const calm: bool

    ghost predicate Valid()
      reads this
    {
      book.Valid(revisions)
    }

    /** What a holder works on. */
    function AttemptOf(claim: Claim): Attempt {
      revisions(claim.version).(acceptance := claim.acceptance)
    }

    constructor (files: set<string>, revisions: Revisions, calm: bool)
      requires Numbered(revisions)
      ensures Valid() && this.files == files && this.revisions == revisions && this.calm == calm && book == FIRST
    {
      this.files, this.revisions, this.calm, book := files, revisions, calm, FIRST;
      new;
      FirstIsValid(revisions);
    }

    // ----- the repository and the channel, one atomic step each -----

    /** `ClaimMerchantAttempt`: a live lease is respected, an expired one is taken over with a new token. */
    method TakeClaim(live: bool) returns (token: nat)
      requires Valid()
      modifies this
      ensures Valid() && (token == 0 <==> live)
      ensures live ==> book == old(book)
      ensures !live ==> token !in old(book).claims && token == old(book).nextToken && book == Claimed(old(book))
    {
      if live {
        return 0;
      }
      NextTokenIsNew(book, revisions);
      ClaimedIsValid(book, revisions);
      hide Book.Valid;
      token := book.nextToken;
      var p := book.progress[book.current];
      book := book.WithClaim(token, Seen(book.current, p)).WithProgress(p.(token := token)).(nextToken := token + 1);
    }

    /** `MarkMerchantDispatched`: refused without the claim, while media are missing or once anything was observed. It
        does not look at the dispatched flag, and takes a second mark like the first. */
    method StoreDispatch(token: nat, live: bool, qualified: bool) returns (ok: bool)
      modifies this
      ensures ok <==>
                && live && old(book).Holds(token) && qualified
                && files <= old(book).progress[old(book).current].media
                && !old(book).progress[old(book).current].observed &&
                  old(book).progress[old(book).current].channel == ""
      ensures !ok ==> book == old(book)
      ensures ok ==> book == old(book).WithProgress(old(book).progress[old(book).current].(dispatched := true))
    {
      if !live || !book.Holds(token) || !qualified {
        return false;
      }
      var p := book.progress[book.current];
      if !(files <= p.media) || p.channel != "" || p.observed {
        return false;
      }
      book := book.WithProgress(p.(dispatched := true));
      return true;
    }

    /** The holder's step around it. The program comes here only with a claim that has not marked and may mark. */
    method MarkDispatched(token: nat, live: bool, qualified: bool) returns (ok: bool)
      requires Valid() && token in book.claims
      requires book.claims[token].MayMark() && !book.claims[token].marked && !book.claims[token].submitted
      modifies this
      ensures Valid()
      ensures ok <==>
                && live && old(book).Holds(token) && qualified
                && files <= old(book).progress[old(book).current].media
                && !old(book).progress[old(book).current].observed &&
                  old(book).progress[old(book).current].channel == ""
      ensures !ok ==> book == old(book)
      ensures ok ==> book == Marked(old(book), token)
    {
      ghost var before := book;
      if book.Holds(token) {
        MarkedIsValid(book, token, revisions);
      }
      hide Book.Valid, Claim.MayMark;
      var was := book.current in book.progress && book.progress[book.current].dispatched;
      ok := StoreDispatch(token, live, qualified);
      if ok {
        book := book.WithClaim(token, book.claims[token].(marked := true, repeated := was));
        assert book == Marked(before, token);
      }
    }

    /** `SubmitMerchant` on the channel. */
    method Submit(token: nat)
      requires Valid() && token in book.claims && book.claims[token].marked && !book.claims[token].submitted
      modifies this
      ensures Valid() && book == Submitted(old(book), token)
    {
      SubmittedIsValid(book, token, revisions);
      hide Book.Valid;
      book := book.WithClaim(token, book.claims[token].(submitted := true)).(submits := book.submits + [token]);
    }

    /** Any write under the claim that is not a dispatch record: media, acceptance, observation, release. */
    method Write(token: nat, live: bool, next: Progress) returns (ok: bool)
      requires Valid()
      modifies this
      ensures Valid() && book == if ok then old(book).WithProgress(next) else old(book)
      ensures ok <==>
                && live && old(book).Holds(token)
                && old(book).progress[old(book).current].MayBecome(next, revisions(old(book).current))
    {
      hide AcceptanceMatches, Book.PairsCompatible, Book.RevisionsFounded, Book.Logged, Book.FirstIsAlone,
        Book.StatesBacked, Book.HoldersInformed, Book.ClaimsLawful;
      if !live || !book.Holds(token) || !book.progress[book.current].MayBecome(next, revisions(book.current)) {
        return false;
      }
      WrittenIsValid(book, next, revisions);
      book := book.WithProgress(next);
      return true;
    }

    /** `ObserveMerchant`: the answer is stored as it was given. `finishable` stands for what FINISH asks in addition.
        */
    method StoreAnswer(token: nat, live: bool, finishable: bool, answer: Answer) returns (ok: bool)
      requires Valid()
      modifies this
      ensures Valid() && book == if ok then Answered(old(book), answer) else old(book)
      ensures ok <==>
                && live && old(book).Holds(token) && (answer.bound.state == "FINISH" ==> finishable)
                && old(book).progress[old(book).current].MayStore(answer, revisions(old(book).current))
    {
      hide Matches, Book.PairsCompatible, Book.RevisionsFounded, Book.Logged, Book.FirstIsAlone, Book.HoldersInformed,
        Book.ClaimsLawful, Book.StatesBacked;
      if !live || !book.Holds(token) || (answer.bound.state == "FINISH" && !finishable) ||
         !book.progress[book.current].MayStore(answer, revisions(book.current)) {
        return false;
      }
      AnsweredIsValid(book, answer, revisions);
      book := Answered(book, answer);
      return true;
    }

    /** A matching NOT_FOUND, noted by the holder that asked. */
    method NoteNotFound(token: nat)
      requires Valid() && token in book.claims
      modifies this
      ensures Valid() && book == Noted(old(book), token)
    {
      NotedIsValid(book, token, revisions);
      hide Book.Valid;
      book := book.WithClaim(token, book.claims[token].(notFound := true));
    }

    /** `CreateMerchantAttempt` with corrected details: only after a stored rejection, with no live claim. */
    method Correct(live: bool)
      requires Valid()
      modifies this
      ensures Valid() && book.claims == old(book).claims && book.submits == old(book).submits
      ensures old(book).current in old(book).progress
      ensures book == old(book) || book == Corrected(old(book))
      ensures book == Corrected(old(book)) ==> book.progress[old(book).current].state == "REJECTED"
      ensures book == Corrected(old(book)) <==>
                && !live && old(book).progress[old(book).current].state == "REJECTED"
                && old(book).progress[old(book).current].dispatched && old(book).progress[old(book).current].observed
    {
      hide AcceptanceMatches, Book.PairsCompatible, Book.RevisionsFounded, Book.Logged, Book.FirstIsAlone,
        Book.StatesBacked, Book.HoldersInformed, Book.ClaimsLawful;
      var p := book.progress[book.current];
      if p.state == "REJECTED" && p.dispatched && p.observed && !live {
        CorrectedIsValid(book, revisions);
        book := Corrected(book);
      }
    }

    // ----- the others -----

    /** A holder's record is its own: only its own steps change it. */
    twostate predicate Kept(mine: nat)
      reads this
    {
      mine in old(book).claims ==> mine in book.claims && book.claims[mine] == old(book).claims[mine]
    }

    /** One atomic step of any other participant that runs the same program. */
    method OtherStep(mine: nat)
      requires Valid()
      modifies this
      ensures Valid() && Kept(mine)
    {
      hide Book.Valid, Claim.MayMark;
      var other: nat := *;
      var kind: int := *;
      var next: Progress := *;
      var live: bool := *;
      var qualified: bool := *;
      if kind == 0 {
        var _ := TakeClaim(live);
      } else if kind == 1 {
        Correct(live);
      } else if other in book.claims && other != mine {
        var claim := book.claims[other];
        if kind == 2 && claim.MayMark() && !claim.marked && !claim.submitted {
          var _ := MarkDispatched(other, live, qualified);
        } else if kind == 3 && claim.marked && !claim.submitted {
          Submit(other);
        } else if kind == 4 {
          NoteNotFound(other);
        } else if kind == 5 {
          var answer: Answer := *;
          var _ := StoreAnswer(other, live, qualified, answer);
        } else {
          var _ := Write(other, live, next);
        }
      }
    }

    method Interleave(mine: nat)
      requires Valid()
      modifies this
      ensures Valid() && Kept(mine)
      ensures calm ==> book == old(book)
    {
      hide Book.Valid;
      var steps: int := *;
      steps := if calm then 0 else steps;
      while steps > 0
        invariant Valid() && Kept(mine)
        invariant calm ==> steps <= 0 && book == old(book)
      {
        OtherStep(mine);
        steps := steps - 1;
      }
    }

    // ----- the program -----

    /** In calm neither the claims nor the submits changed, and the claim is held as before. */
    twostate predicate Undisturbed(token: nat)
      reads this
    {
      calm ==>
        && book.claims == old(book).claims && book.submits == old(book).submits && book.current == old(book).current
        && (old(book).Holds(token) ==> book.Holds(token))
    }

    /** A write of the holder, after any steps of the others: what is stored is the change of what was read. */
    method Store(token: nat, change: Progress -> Progress) returns (ok: bool, ghost read: Progress)
      requires Valid() && token in book.claims
      modifies this
      ensures Valid() && token in book.claims && book.claims[token] == old(book).claims[token]
      ensures ok ==> book.claims[token].version == book.current && book.current in book.progress
      ensures ok ==>
                book.progress[book.current] == change(read) && read.MayBecome(change(read), revisions(book.current))
      ensures calm && old(book).Holds(token) ==>
                && read == old(book).progress[old(book).current]
                && (ok <==> read.MayBecome(change(read), revisions(old(book).current)))
                && book == (if ok then old(book).WithProgress(change(read)) else old(book))
      ensures calm ==>
                book.claims == old(book).claims && book.submits == old(book).submits &&
                book.current == old(book).current
      ensures (forall p :: change(p).token == p.token) ==> Undisturbed(token)
    {
      hide Book.Valid, Progress.MayBecome;
      Interleave(token);
      var live: bool := *;
      read := FRESH_PROGRESS;
      if book.claims[token].version !in book.progress {
        return false, read;
      }
      read := book.progress[book.claims[token].version];
      ok := Write(token, live || calm, change(book.progress[book.claims[token].version]));
    }

    /** `UploadMerchantImage` and `SaveMerchantMedia` for every file that is not stored yet. */
    method UploadMedia(token: nat, uploads: bool) returns (ok: bool)
      requires Valid() && token in book.claims
      modifies this
      ensures Valid() && token in book.claims && book.claims[token] == old(book).claims[token]
      ensures Undisturbed(token)
      ensures calm && old(book).Holds(token) && uploads ==>
                ok && book == WithMedia(old(book), files - old(book).claims[token].media)
    {
      hide Book.Valid;
      var todo := files - book.claims[token].media;
      var rest := todo;
      ghost var calmly := calm && book.Holds(token);
      if calmly {
        NoMedia(book);
        assert todo - rest == {};
      }
      while rest != {}
        invariant Valid() && token in book.claims && book.claims[token] == old(book).claims[token]
        invariant rest <= todo && Undisturbed(token)
        invariant calmly ==> book.Holds(token) && book == WithMedia(old(book), todo - rest)
        decreases rest
      {
        var file :| file in rest;
        var uploaded: bool := *;
        if !uploads && !uploaded {
          return false;
        }
        ghost var read;
        ok, read := Store(token, (p: Progress) => p.(media := p.media + {file}));
        if !ok {
          return false;
        }
        if calmly {
          MoreMedia(old(book), todo - rest, file);
          assert (todo - rest) + {file} == todo - (rest - {file});
        }
        rest := rest - {file};
      }
      assert todo - rest == todo;
      ok := true;
    }

    /** `accept`: an answer of the channel is bound to the attempt and stored, state and all, if it matches. */
    method Observe(token: nat, attempt: Attempt, answer: Observation, finishable: bool) returns (stored: bool)
      requires Valid() && token in book.claims
      modifies this
      ensures Valid() && token in book.claims && book.claims[token] == old(book).claims[token]
      ensures stored ==>
                && book.claims[token].version == book.current && book.current in book.progress
                && book.progress[book.current].state == answer.state && book.progress[book.current].observed
                && book.progress[book.current].channel == answer.channelApplicationId
                && Matches(BindQuery(attempt, answer), attempt) && answer.state != "NOT_FOUND"
      ensures !stored && calm ==> book == old(book)
      ensures calm && old(book).Holds(token) ==>
                && (stored <==> Storable(old(book).progress[old(book).current], revisions(old(book).current), attempt,
                                         answer, finishable))
                && book.progress[book.current].acceptance == old(book).progress[old(book).current].acceptance
      ensures Undisturbed(token)
    {
      hide Book.Valid, Matches;
      var bound := BindQuery(attempt, answer);
      if !Matches(bound, attempt) || bound.state == "NOT_FOUND" {
        return false;
      }
      Interleave(token);
      var live: bool := *;
      stored := StoreAnswer(token, live || calm, finishable, Answer(attempt, bound));
    }

    /** The channel was asked about a dispatched revision and knows nothing of it, although it could. */
    ghost predicate ToldOfAbsence(claim: Claim, world: World) {
      && world.answer.Some? && world.answer.value.state == "NOT_FOUND" && CanObserve(AttemptOf(claim))
      && Matches(world.answer.value.(revisionId := ""), AttemptOf(claim))
      && claim.version == 1 && claim.state == "PREPARING" && !claim.observed
    }

    /** A resume that nothing disturbs goes through to the submit. */
    ghost predicate GoesThrough(claim: Claim, world: World) {
      && (claim.dispatched ==> ToldOfAbsence(claim, world))
      && world.uploads && world.allowed && world.qualified
    }

    /** `continueOriginal`: claim, query what was dispatched before, mark, submit, observe, release. */
    method ContinueOriginal(world: World) returns (token: nat)
      requires Valid()
      modifies this
      ensures Valid()
      ensures token == 0 <==> world.leased
      ensures token != 0 ==> token !in old(book).claims && token in book.claims
      ensures token != 0 && book.claims[token].submitted ==> book.claims[token].MayMark()
      // In calm it submits exactly if it may, and once.
      ensures calm && world.leased ==> book == old(book)
      ensures calm && !world.leased && old(book).current in old(book).progress ==>
                var p := old(book).progress[old(book).current];
                book.submits == old(book).submits +
                  (if world.profileHolds && GoesThrough(Seen(old(book).current, p), world) && !p.observed &&
                    p.channel == ""
                   then [token] else [])
    {
      hide Book.Valid;
      token := TakeClaim(world.leased);
      if token == 0 {
        return;
      }
      Interleave(token);
      if world.profileHolds {
        DispatchClaimed(token, world);
      }
      var _, _ := Store(token, (p: Progress) => p.(token := 0));
    }

    method DispatchClaimed(token: nat, world: World)
      requires Valid() && token in book.claims && !book.claims[token].marked && !book.claims[token].submitted
      modifies this
      ensures Valid() && token in book.claims && (book.claims[token].submitted ==> book.claims[token].MayMark())
      ensures calm && old(book).Holds(token) && old(book).claims[token].media
              == old(book).progress[old(book).current].media ==>
                && book.Holds(token)
                && var p := old(book).progress[old(book).current];
                   book.submits == old(book).submits +
                     (if GoesThrough(old(book).claims[token], world) && !p.observed && p.channel == "" then [token]
                       else [])
    {
      hide Book.Valid, Matches, CanObserve;
      if book.claims[token].dispatched {
        var goOn := QueryFirst(token, world);
        if !goOn {
          return;
        }
      }
      var uploaded := UploadMedia(token, world.uploads);
      if !uploaded || !world.uploads || !world.allowed {
        return;
      }
      Interleave(token);
      var live: bool := *;
      var marked := MarkDispatched(token, live || calm, world.qualified);
      if marked {
        SubmitMarked(token, world);
      }
    }

    /** The channel's acceptance is of this attempt and may be saved. */
    ghost predicate Accepts(b: Book, token: nat, world: World)
      requires token in b.claims && b.current in b.progress
    {
      && world.accepted.Some? && AcceptanceMatches(world.accepted.value, AttemptOf(b.claims[token]))
      && b.progress[b.current].MayAccept(world.accepted.value, revisions(b.current))
    }

    /** `SaveMerchantAcceptance` */
    method SaveAcceptance(token: nat, proof: Acceptance) returns (saved: bool)
      requires Valid() && token in book.claims
      modifies this
      ensures Valid() && token in book.claims && book.claims[token] == old(book).claims[token]
      ensures Undisturbed(token)
      ensures saved ==> book.current in book.progress && book.progress[book.current].acceptance == Some(proof)
      ensures calm && old(book).Holds(token) &&
              old(book).progress[old(book).current].MayAccept(proof, revisions(old(book).current)) ==>
                && saved
                && book == old(book).WithProgress(old(book).progress[old(book).current].(acceptance := Some(proof)))
    {
      hide Book.Valid, AcceptanceMatches;
      ghost var read;
      saved, read := Store(token, (p: Progress) => p.(acceptance := Some(proof)));
    }

    /** No lease is checked between the mark and the submit. */
    method SubmitMarked(token: nat, world: World)
      requires Valid() && token in book.claims && book.claims[token].marked && !book.claims[token].submitted
      modifies this
      ensures Valid() && token in book.claims && book.claims[token] == old(book).claims[token].(submitted := true)
      ensures calm ==> book.submits == old(book).submits + [token]
      ensures calm && old(book).Holds(token) ==> book.Holds(token)
      // In calm what the channel accepted and answered is stored.
      ensures calm && old(book).Holds(token) && world.accepted.None? && world.lastAnswer.Some? ==>
                var attempt := AttemptOf(old(book).claims[token]);
                CanObserve(attempt) &&
                Storable(old(book).progress[old(book).current], revisions(old(book).current), attempt,
                         world.lastAnswer.value, world.finishable) ==>
                  book.progress[book.current].state == world.lastAnswer.value.state
      ensures calm && old(book).Holds(token) && Accepts(old(book), token, world) ==>
                book.progress[book.current].acceptance == world.accepted
      ensures calm && old(book).Holds(token) && Accepts(old(book), token, world) && world.lastAnswer.Some? ==>
                var attempt := AttemptOf(old(book).claims[token]).(acceptance := world.accepted);
                CanObserve(attempt) &&
                Storable(old(book).progress[old(book).current].(acceptance := world.accepted),
                         revisions(old(book).current), attempt, world.lastAnswer.value, world.finishable) ==>
                  book.progress[book.current].state == world.lastAnswer.value.state
    {
      hide Book.Valid, Matches, AcceptanceMatches, CanObserve, Storable, Progress.MayAccept;
      Interleave(token);
      Submit(token);
      var attempt := AttemptOf(book.claims[token]);
      if world.accepted.Some? {
        if !AcceptanceMatches(world.accepted.value, attempt) {
          return;
        }
        var saved := SaveAcceptance(token, world.accepted.value);
        if !saved {
          return;
        }
        attempt := attempt.(acceptance := world.accepted);
      }
      ObserveLast(token, attempt, world);
    }

    /** The last query, if the attempt can be observed and the channel answers. */
    method ObserveLast(token: nat, attempt: Attempt, world: World)
      requires Valid() && token in book.claims
      modifies this
      ensures Valid() && token in book.claims && book.claims[token] == old(book).claims[token] && Undisturbed(token)
      ensures calm && old(book).Holds(token) ==>
                && book.progress[book.current].acceptance == old(book).progress[old(book).current].acceptance
                && (world.lastAnswer.Some? && CanObserve(attempt) &&
                    Storable(old(book).progress[old(book).current], revisions(old(book).current), attempt,
                             world.lastAnswer.value, world.finishable) ==>
                      book.progress[book.current].state == world.lastAnswer.value.state)
    {
      hide Book.Valid, Matches, CanObserve, Storable;
      if CanObserve(attempt) && world.lastAnswer.Some? {
        var _ := Observe(token, attempt, world.lastAnswer.value, world.finishable);
      }
    }

    /** A marked revision is queried first; only verified absence of the first revision goes on. A NOT_FOUND of the
        channel names no revision. */
    method QueryFirst(token: nat, world: World) returns (goOn: bool)
      requires Valid() && token in book.claims && book.claims[token].dispatched
      modifies this
      ensures Valid() && token in book.claims
      ensures book.claims[token] == old(book).claims[token].(notFound := book.claims[token].notFound)
      ensures goOn ==> book.claims[token].MayMark()
      ensures goOn <==> ToldOfAbsence(old(book).claims[token], world)
      ensures calm ==> book.submits == old(book).submits
      ensures calm && goOn ==> book == Noted(old(book), token)
      ensures calm && old(book).Holds(token) ==> book.Holds(token)
    {
      hide AcceptanceMatches, Book.PairsCompatible, Book.RevisionsFounded, Book.Logged, Book.FirstIsAlone,
        Book.StatesBacked, Book.HoldersInformed, Book.ClaimsLawful;
      var attempt := AttemptOf(book.claims[token]);
      if world.answer.None? || !CanObserve(attempt) {
        return false;
      }
      if world.answer.value.state != "NOT_FOUND" {
        var _ := Observe(token, attempt, world.answer.value, world.finishable);
        return false;
      }
      var absent := world.answer.value.(revisionId := "");
      if !Matches(absent, attempt) || book.claims[token].version > 1 || book.claims[token].state != "PREPARING" ||
        book.claims[token].observed {
        return false;
      }
      UnboundAbsence(attempt, absent);
      NoteNotFound(token);
      return true;
    }

    /** `Read`: it may claim, query and store an observation, but it never marks and never submits. */
    method Read(world: World) returns (token: nat)
      requires Valid()
      modifies this
      ensures Valid()
      ensures token != 0 ==> token in book.claims && !book.claims[token].marked && !book.claims[token].submitted
      ensures calm ==> book.submits == old(book).submits
      // In calm an observable answer is stored.
      ensures calm && !world.leased && world.profileHolds && world.answer.Some? &&
              old(book).current in old(book).progress ==>
                var p := old(book).progress[old(book).current];
                var attempt := AttemptOf(Seen(old(book).current, p));
                p.dispatched && CanObserve(attempt) &&
                Storable(p, revisions(old(book).current), attempt, world.answer.value, world.finishable) ==>
                  book.current in book.progress && book.progress[book.current].state == world.answer.value.state
    {
      hide Book.PairsCompatible, Book.RevisionsFounded, Book.Logged, Book.FirstIsAlone, Book.HoldersInformed,
        Book.StatesBacked, Book.ClaimsLawful, AcceptanceMatches, Matches;
      token := 0;
      var seen := Seen(book.current, book.progress[book.current]);
      if !seen.dispatched || !CanObserve(AttemptOf(seen)) || !world.profileHolds {
        return;
      }
      Interleave(0);
      token := TakeClaim(world.leased);
      if token == 0 {
        return;
      }
      var attempt := AttemptOf(book.claims[token]);
      if book.claims[token].dispatched && CanObserve(attempt) && world.answer.Some? {
        var _ := Observe(token, attempt, world.answer.value, world.finishable);
      }
      var _, _ := Store(token, (p: Progress) => p.(token := 0));
    }

    /** Any number of resumes, reads and corrections: a revision is submitted at most once without verified absence
        before it, and a corrected one at most once. */
    method ManyResumes(n: nat)
      requires Valid()
      modifies this
      ensures Valid() && forall version :: |Unqueried(book, version)| <= 1
      // A revision that was followed by another had been rejected by the channel.
      ensures forall version | 1 <= version < book.current :: RejectedByChannel(book, version)
      ensures forall i, j | 0 <= i < j < |book.submits| && book.submits[i] in book.claims &&
              book.submits[j] in book.claims ::
                book.claims[book.submits[i]].version == book.claims[book.submits[j]].version ==>
                  book.claims[book.submits[i]].version == 1
    {
      hide Book.Valid;
      for i := 0 to n
        invariant Valid()
      {
        var live: bool := *;
        var world: World := *;
        var _ := ContinueOriginal(world);
        world := *;
        var _ := Read(world);
        Correct(live);
      }
      forall version
        ensures |Unqueried(book, version)| <= 1
      {
        UnqueriedOnce(book, revisions, version);
      }
      forall version | 1 <= version < book.current
        ensures RejectedByChannel(book, version)
      {
        var k := CorrectedAfterRejection(book, revisions, version);
      }
      forall i, j | 0 <= i < j < |book.submits| && book.submits[i] in book.claims && book.submits[j] in book.claims &&
                    book.claims[book.submits[i]].version == book.claims[book.submits[j]].version
        ensures book.claims[book.submits[i]].version == 1
      {
        SubmittedOnce(book, revisions, i, j);
      }
    }
  }

  /** The first holder stores the media, marks, and stalls past its lease. */
  method Stall(files: set<string>, revisions: Revisions) returns (o: Onboarding, stalled: nat)
    requires Numbered(revisions)
    ensures fresh(o) && o.Valid() && o.files == files && o.book.current == 1 && o.book.nextToken == stalled + 1 &&
            o.book.submits == []
    ensures o.book.claims == map[stalled := Seen(1, FRESH_PROGRESS).(marked := true)]
    ensures o.book.progress == map[1 := FRESH_PROGRESS.(token := stalled, dispatched := true, media := files)]
  {
    o := new Onboarding(files, revisions, false);
    hide Book.Valid, AcceptanceMatches;
    stalled := o.TakeClaim(false);
    assert o.book.progress[1] == FRESH_PROGRESS.(token := stalled) && o.book.claims[stalled] == Seen(1, FRESH_PROGRESS);
    var stored := o.Write(stalled, true, FRESH_PROGRESS.(token := stalled, media := files));
    var marked := o.MarkDispatched(stalled, true, true);
    assert marked;
  }

  /** The next holder sees the dispatch, is told of the absence, marks and submits. */
  method Repeat(o: Onboarding) returns (second: nat)
    requires o.Valid() && o.book.current == 1 && 1 in o.book.progress
    requires o.book.progress[1].(token := 0) == FRESH_PROGRESS.(dispatched := true, media := o.files)
    modifies o
    ensures o.Valid() && second == old(o.book).nextToken && second !in old(o.book).claims &&
            o.book.submits == old(o.book).submits + [second]
    ensures second in o.book.claims && o.book.claims[second].repeated && o.book.claims[second].FollowsAbsence()
    ensures forall t | t in old(o.book).claims :: t in o.book.claims && o.book.claims[t] == old(o.book).claims[t]
  {
    hide Book.Valid;
    second := o.TakeClaim(false);
    assert o.book.progress[1] == FRESH_PROGRESS.(token := second, dispatched := true, media := o.files);
    o.NoteNotFound(second);
    assert o.book.claims[second] == Seen(1, FRESH_PROGRESS).(dispatched := true, notFound := true, media := o.files);
    var marked := o.MarkDispatched(second, true, true);
    o.Submit(second);
  }

  /** A history of the program in which the submit without a query comes last, because no lease is checked between the
      mark and the submit. */
  method Overtaking(files: set<string>, revisions: Revisions) returns (o: Onboarding, stalled: nat, second: nat)
    requires Numbered(revisions)
    ensures o.Valid() && o.files == files && o.book.submits == [second, stalled]
    ensures stalled in o.book.claims && o.book.claims[stalled].version == 1
    ensures !o.book.claims[stalled].notFound && !o.book.claims[stalled].repeated
    ensures second in o.book.claims && o.book.claims[second].repeated && o.book.claims[second].FollowsAbsence()
  {
    hide Book.Valid;
    o, stalled := Stall(files, revisions);
    second := Repeat(o);
    assert stalled != second;
    o.Submit(stalled);
  }
}
